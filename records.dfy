/** The records the dashboard exchanges with its backend, restricted to the
    fields that the modelled pages read, and the requests the pages send. */
module Records {
  import opened Sequences
  import opened Strings

  datatype Option<T> = None | Some(value: T)

  /** A media file of the listing: an uploaded 360° video, a thumbnail or a
      streamed snapshot. `updatedAt` is the backend's timestamp as an integer. */
  datatype MediaFile = MediaFile(
    id: string,
    title: string,
    mediaType: string,
    size: nat,
    path: string,
    thumbnail: string,
    updatedAt: int)

  /** Uploaded 360° videos are the media stored under a path containing
      "vr360"; thumbnails and streamed frames live elsewhere. */
  predicate IsVr360(m: MediaFile)
  {
    Contains(m.path, "vr360")
  }

  /** A VR event: a password-gated playlist of media ids with a streaming
      status ("draft", "scheduled", "active", "completed" or the id of the
      media being played). */
  datatype Event = Event(
    id: string,
    title: string,
    description: string,
    intro: string,
    logo: string,
    videoList: seq<string>,
    streaming: string,
    username: string,
    password: string,
    createdAt: string,
    updatedAt: string)

  /** A field of a JSON request body. */
  datatype Value = Text(text: string) | TextList(items: seq<string>)

  /** A request sent to the backend; the pages record each one they issue. */
  datatype Request =
    | CreateEvent(fields: map<string, Value>)
    | UpdateEvent(eventId: string, fields: map<string, Value>)
    | DeleteEvent(eventId: string)
    | DeleteMedia(mediaId: string)
    | UploadMedia(fileName: string, folder: string, createdBy: string)

  /** The media of `listing` whose id occurs in `ids`, in listing order:
      `listing.filter(v => ids.includes(v._id))`. */
  function Playlist(listing: seq<MediaFile>, ids: seq<string>): seq<MediaFile>
  {
    Filter(listing, (v: MediaFile) => v.id in ids)
  }

  /** The playlist is the order-preserving subsequence of the listing made of
      exactly the media whose id is listed, each with its multiplicity in the
      listing; the order of `ids` and repeated ids play no part. */
  lemma PlaylistSpec(listing: seq<MediaFile>, ids: seq<string>)
    ensures IsSubsequence(Playlist(listing, ids), listing)
    ensures forall v :: v in Playlist(listing, ids) <==> v in listing && v.id in ids
    ensures forall v :: multiset(Playlist(listing, ids))[v] == if v.id in ids then multiset(listing)[v] else 0
  {
    var p := (v: MediaFile) => v.id in ids;
    FilterIsSubsequence(listing, p);
    forall v ensures multiset(Filter(listing, p))[v] == if p(v) then multiset(listing)[v] else 0 {
      FilterMultiset(listing, p, v);
    }
    forall v ensures v in Filter(listing, p) <==> v in listing && p(v) {
      FilterMembership(listing, p, v);
    }
  }

  /** A media list without the entries whose id is `id`: the library after a
      deletion, or a playlist after a removal. */
  function WithoutMedia(videos: seq<MediaFile>, id: string): seq<MediaFile>
  {
    Filter(videos, (v: MediaFile) => v.id != id)
  }

  /** Deletion removes every media with that id and keeps all others with
      their multiplicity and order. */
  lemma WithoutMediaSpec(videos: seq<MediaFile>, id: string)
    ensures IsSubsequence(WithoutMedia(videos, id), videos)
    ensures forall v :: v in WithoutMedia(videos, id) ==> v.id != id
    ensures forall v: MediaFile :: v.id != id ==> multiset(WithoutMedia(videos, id))[v] == multiset(videos)[v]
  {
    var p := (v: MediaFile) => v.id != id;
    FilterIsSubsequence(videos, p);
    forall v: MediaFile | v.id != id ensures multiset(Filter(videos, p))[v] == multiset(videos)[v] {
      FilterMultiset(videos, p, v);
    }
  }
}
