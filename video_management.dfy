/** The video-library page: the 360° videos of the media listing with a
    case-insensitive title search, their size in megabytes, a preview
    player, deletion after confirmation and the upload dialog. */
module VideoManagement {
  import opened Records
  import opened Sequences
  import opened Strings
  import opened Utils

  // ---------------------------------------------------------------------
  // Search

  /** A media is listed when it is a 360° video (case-sensitive path test)
      whose lower-cased title contains the lower-cased term. */
  predicate VideoMatches(term: string, v: MediaFile)
  {
    IsVr360(v) && Contains(Lower(v.title), Lower(term))
  }

  /** The videos shown for a search term, in listing order. */
  function FilteredVideos(videos: seq<MediaFile>, term: string): seq<MediaFile>
  {
    Filter(videos, (v: MediaFile) => VideoMatches(term, v))
  }

  /** The shown videos are exactly the matching ones, in listing order. */
  lemma FilteredVideosSpec(videos: seq<MediaFile>, term: string)
    ensures IsSubsequence(FilteredVideos(videos, term), videos)
    ensures forall v :: v in FilteredVideos(videos, term) <==> v in videos && VideoMatches(term, v)
  {
    var p := (v: MediaFile) => VideoMatches(term, v);
    FilterIsSubsequence(videos, p);
    forall v ensures v in Filter(videos, p) <==> v in videos && p(v) {
      FilterMembership(videos, p, v);
    }
  }

  /** With an empty search every 360° video is shown, and nothing else. */
  lemma EmptyTermShowsAllVideos(videos: seq<MediaFile>)
    ensures FilteredVideos(videos, "") == Filter(videos, IsVr360)
  {
    forall i | 0 <= i < |videos| ensures VideoMatches("", videos[i]) == IsVr360(videos[i]) {
      ContainsEmpty(Lower(videos[i].title));
    }
    FilterCongruent(videos, (v: MediaFile) => VideoMatches("", v), IsVr360);
  }

  /** Terms that differ only in letter case show the same videos. */
  lemma VideoSearchIgnoresCase(videos: seq<MediaFile>, t1: string, t2: string)
    requires Lower(t1) == Lower(t2)
    ensures FilteredVideos(videos, t1) == FilteredVideos(videos, t2)
  {
    FilterCongruent(videos, (v: MediaFile) => VideoMatches(t1, v), (v: MediaFile) => VideoMatches(t2, v));
  }

  /** A newly uploaded media heads the shown list when it matches the search
      and leaves the shown list as it was when it does not. */
  lemma {:induction false} PrependedShownFirst(uploaded: MediaFile, videos: seq<MediaFile>, term: string)
    ensures FilteredVideos([uploaded] + videos, term) ==
      (if VideoMatches(term, uploaded) then [uploaded] else []) + FilteredVideos(videos, term)
  {
    assert ([uploaded] + videos)[1..] == videos;
  }

  // ---------------------------------------------------------------------
  // Size label

  /** `Math.round(size / (1024 * 1024))` over a non-negative byte count:
      halves round up. */
  function RoundedMegabytes(size: nat): (mb: nat)
    ensures mb * 1048576 <= size + 524288 < (mb + 1) * 1048576
  {
    (size + 524288) / 1048576
  }

  /** The label is the nearest whole number of megabytes: no whole number is
      strictly closer to the size. */
  lemma RoundedMegabytesNearest(size: nat, other: nat)
    ensures var d := size - RoundedMegabytes(size) * 1048576;
            var e := size - other * 1048576;
            (if d < 0 then -d else d) <= (if e < 0 then -e else e)
  {
  }

  /** A larger file never gets a smaller label. */
  lemma RoundedMegabytesMonotone(a: nat, b: nat)
    requires a <= b
    ensures RoundedMegabytes(a) <= RoundedMegabytes(b)
  {
  }

  // ---------------------------------------------------------------------
  // The page

  class VideoManagementPage {
    const baseUrl: string
    var searchTerm: string
    var videos: seq<MediaFile>
    var loading: bool
    var previewVideo: Option<MediaFile>
    var openUpload: bool
    var file: Option<string>
    var requests: seq<Request>

    /** What the library shows. */
    function Shown(): seq<MediaFile>
      reads this
    {
      FilteredVideos(videos, searchTerm)
    }

    /** The address the preview player loads. */
    function PreviewUrl(): (url: Option<string>)
      reads this
      ensures url.Some? <==> previewVideo.Some?
      ensures url.Some? ==> MediaPath(baseUrl, url.value) == Some(previewVideo.value.path)
    {
      match previewVideo
      case None => None
      case Some(v) =>
        MediaPathRoundTrip(baseUrl, v.path);
        Some(GetMediaFile(baseUrl, v.path))
    }

    constructor (baseUrl: string)
      ensures this.baseUrl == baseUrl
      ensures searchTerm == "" && videos == [] && loading && previewVideo == None
      ensures !openUpload && file == None && requests == []
    {
      this.baseUrl := baseUrl;
      searchTerm, videos, loading, previewVideo := "", [], true, None;
      openUpload, file, requests := false, None, [];
    }

    /** The mount effect; a failed request (None) leaves the list as it was. */
    method Load(response: Option<seq<MediaFile>>)
      modifies this`videos, this`loading
      ensures !loading
      ensures videos == if response.Some? then response.value else old(videos)
    {
      if response.Some? {
        videos := response.value;
      }
      loading := false;
    }

    /** Typing into the search box. */
    method SetSearchTerm(term: string)
      modifies this`searchTerm
      ensures searchTerm == term
    {
      searchTerm := term;
    }

    /** `handleDelete`: nothing unless the user confirms; then the delete
        request is sent, and on success every media with that id leaves the
        list. */
    method HandleDelete(id: string, confirmed: bool, succeeded: bool)
      modifies this`requests, this`videos
      ensures !confirmed ==> requests == old(requests)
      ensures confirmed ==> requests == old(requests) + [DeleteMedia(id)]
      ensures videos == if confirmed && succeeded then WithoutMedia(old(videos), id) else old(videos)
    {
      if !confirmed {
        return;
      }
      requests := requests + [DeleteMedia(id)];
      if succeeded {
        videos := WithoutMedia(videos, id);
      }
    }

    /** Opening or closing the upload dialog. */
    method SetOpenUpload(open: bool)
      modifies this`openUpload
      ensures openUpload == open
    {
      openUpload := open;
    }

    /** Choosing a file in the dialog (None when the choice is cleared). */
    method SelectFile(chosen: Option<string>)
      modifies this`file
      ensures file == chosen
    {
      file := chosen;
    }

    /** `handleUpload`: nothing without a file; otherwise the file is sent as
        a video by "admin", and on success the new media heads the list, the
        file is cleared and the dialog closes. A failed upload changes
        nothing but the request log. */
    method HandleUpload(response: Option<MediaFile>)
      modifies this`requests, this`videos, this`file, this`openUpload
      ensures old(file).None? ==>
        requests == old(requests) && videos == old(videos) && file == old(file) && openUpload == old(openUpload)
      ensures old(file).Some? ==> requests == old(requests) + [UploadMedia(old(file).value, "video", "admin")]
      ensures old(file).Some? && response.Some? ==>
        videos == [response.value] + old(videos) && file == None && !openUpload
      ensures old(file).Some? && response.None? ==>
        videos == old(videos) && file == old(file) && openUpload == old(openUpload)
    {
      if file.None? {
        return;
      }
      requests := requests + [UploadMedia(file.value, "video", "admin")];
      if response.Some? {
        videos := [response.value] + videos;
        file := None;
        openUpload := false;
      }
    }

    /** Opening the preview player on a video. */
    method Preview(video: MediaFile)
      modifies this`previewVideo
      ensures previewVideo == Some(video)
      ensures PreviewUrl() == Some(GetMediaFile(baseUrl, video.path))
    {
      previewVideo := Some(video);
    }

    /** Closing the preview player. */
    method ClosePreview()
      modifies this`previewVideo
      ensures previewVideo == None && PreviewUrl() == None
    {
      previewVideo := None;
    }
  }
}
