/** The streaming-control page: a playlist cursor that plays, pauses and
    wraps around, the mute toggle, the elapsed-time label, and the one-second
    snapshot poll that keeps the newest streamed frame on screen. */
module StreamingControl {
  import opened Records
  import opened Sequences
  import opened Strings
  import opened Utils

  // ---------------------------------------------------------------------
  // Playlist cursor

  /** The index played when the current video ends: the next one, or the
      first when the end of the playlist is reached. */
  function NextIndex(currentIndex: int, length: nat): (next: int)
    ensures currentIndex >= 0 && length > 0 ==> 0 <= next < length
    ensures 0 <= currentIndex < length ==> next == (currentIndex + 1) % length
  {
    var next := currentIndex + 1;
    if next >= length then 0 else next
  }

  /** The index reached after `steps` consecutive "ended" notifications. */
  function Advance(currentIndex: int, length: nat, steps: nat): int
    decreases steps
  {
    if steps == 0 then currentIndex else NextIndex(Advance(currentIndex, length, steps - 1), length)
  }

  /** The remainder of `x` by `length`, by repeated subtraction. */
  function Wrap(x: nat, length: nat): (r: nat)
    requires length > 0
    ensures r < length
    decreases x
  {
    if x < length then x else Wrap(x - length, length)
  }

  /** One more step moves the wrapped position on by one place. */
  lemma {:induction false} WrapSuccessor(x: nat, length: nat)
    requires length > 0
    ensures Wrap(x + 1, length) == NextIndex(Wrap(x, length), length)
    decreases x
  {
    if x >= length {
      WrapSuccessor(x - length, length);
    }
  }

  /** Playback cycles through the playlist: after `steps` endings the cursor
      is `steps` places further on, wrapping at the playlist length. */
  lemma {:induction false} AdvanceCycles(currentIndex: nat, length: nat, steps: nat)
    requires currentIndex < length
    ensures Advance(currentIndex, length, steps) == Wrap(currentIndex + steps, length)
  {
    if steps > 0 {
      AdvanceCycles(currentIndex, length, steps - 1);
      WrapSuccessor(currentIndex + steps - 1, length);
    }
  }

  /** After as many endings as there are videos, the cursor is back where it
      started, and every video is reached on the way. */
  lemma EveryVideoReached(currentIndex: nat, length: nat, target: nat)
    requires currentIndex < length && target < length
    ensures Advance(currentIndex, length, length) == currentIndex
    ensures exists steps: nat :: steps < length && Advance(currentIndex, length, steps) == target
  {
    AdvanceCycles(currentIndex, length, length);
    assert Wrap(currentIndex + length, length) == Wrap(currentIndex, length);
    var steps: nat := if target >= currentIndex then target - currentIndex else target + length - currentIndex;
    AdvanceCycles(currentIndex, length, steps);
    assert Wrap(currentIndex + steps, length) == target by {
      if target < currentIndex {
        assert Wrap(target + length, length) == Wrap(target, length);
      }
    }
  }

  /** Both "ended" listeners read the index captured by their shared
      closure. Had the second seen the first one's update, a playlist of
      two or more videos would skip one. */
  lemma SecondListenerWouldSkip(currentIndex: int, length: nat)
    requires 2 <= length && 0 <= currentIndex < length
    ensures NextIndex(NextIndex(currentIndex, length), length) != NextIndex(currentIndex, length)
  {
  }

  /** `playlist[currentIndex] || null`. */
  function CurrentVideo(playlist: seq<MediaFile>, currentIndex: int): (v: Option<MediaFile>)
    ensures v.Some? <==> 0 <= currentIndex < |playlist|
    ensures v.Some? ==> v.value == playlist[currentIndex]
  {
    if 0 <= currentIndex < |playlist| then Some(playlist[currentIndex]) else None
  }

  /** The value reported as the event's `streaming` field when playing
      `index`: the id of the video there, or "" when there is none. */
  function StreamingValue(playlist: seq<MediaFile>, index: int): (value: string)
    ensures 0 <= index < |playlist| ==> value == playlist[index].id
    ensures !(0 <= index < |playlist|) ==> value == ""
  {
    match CurrentVideo(playlist, index)
    case Some(v) => v.id
    case None => ""
  }

  /** The update sent for the selected event, if there is one. */
  function StreamingReport(selectedEvent: Option<Event>, value: string): (sent: seq<Request>)
    ensures selectedEvent.None? ==> sent == []
    ensures selectedEvent.Some? ==> sent == [UpdateEvent(selectedEvent.value.id, map["streaming" := Text(value)])]
  {
    match selectedEvent
    case Some(e) => [UpdateEvent(e.id, map["streaming" := Text(value)])]
    case None => []
  }

  // ---------------------------------------------------------------------
  // Volume and time label

  /** The mute button: volume 0 becomes 75, any other volume becomes 0. */
  function MuteToggle(volume: int): (next: int)
    ensures (next == 0) <==> (volume != 0)
    ensures next == 0 || next == 75
  {
    if volume == 0 then 75 else 0
  }

  /** Pressing mute twice restores every volume except a custom non-zero one,
      which comes back as 75. */
  lemma MuteTwice(volume: int)
    ensures MuteToggle(MuteToggle(volume)) == if volume == 0 then 0 else 75
  {
  }

  /** `formatTime` over whole seconds: minutes, a colon, and the seconds
      padded to two digits; zero seconds give "0:00". */
  function FormatTime(seconds: nat): string
  {
    if seconds == 0 then "0:00" else MinutesSeconds(seconds / 60, seconds % 60)
  }

  /** `${m}:${s.toString().padStart(2, "0")}`. */
  function MinutesSeconds(minutes: nat, secs: nat): string
  {
    Decimal(minutes) + ":" + PadStart(Decimal(secs), 2, '0')
  }

  /** The guard for zero agrees with the general formula. */
  lemma FormatTimeZero()
    ensures FormatTime(0) == MinutesSeconds(0, 0)
  {
    assert Decimal(0) == "0";
  }

  /** The seconds field is exactly two digits that read back as the seconds. */
  lemma PaddedSeconds(secs: nat)
    requires secs < 60
    ensures var padded := PadStart(Decimal(secs), 2, '0');
      |padded| == 2 && IsDigits(padded) && ParseDecimal(padded) == secs
  {
    var s := Decimal(secs);
    var padded := PadStart(s, 2, '0');
    DecimalRoundTrip(secs);
    if |s| == 1 {
      assert padded == ['0'] + s;
      assert padded[..1] == "0";
    } else {
      assert padded == s;
    }
  }

  /** Reads a label back into seconds: digits, ':', then two digits. */
  function ParseTime(text: string): Option<nat>
  {
    if |text| >= 4 && text[|text| - 3] == ':' && IsDigits(text[..|text| - 3]) && IsDigits(text[|text| - 2..])
    then Some(60 * ParseDecimal(text[..|text| - 3]) + ParseDecimal(text[|text| - 2..]))
    else None
  }

  lemma ParseJoined(minutes: string, secs: string)
    requires |minutes| >= 1 && IsDigits(minutes) && |secs| == 2 && IsDigits(secs)
    ensures ParseTime(minutes + ":" + secs) == Some(60 * ParseDecimal(minutes) + ParseDecimal(secs))
  {
    var text := minutes + ":" + secs;
    assert text[..|minutes|] == minutes;
    assert text[|minutes| + 1..] == secs;
  }

  /** Every label reads back as the duration it shows, so it has the
      minutes-colon-two-digits shape and no two durations share a label. */
  lemma FormatTimeRoundTrip(seconds: nat)
    ensures ParseTime(FormatTime(seconds)) == Some(seconds)
  {
    var minutes, secs := seconds / 60, seconds % 60;
    assert 60 * minutes + secs == seconds;
    assert FormatTime(seconds) == MinutesSeconds(minutes, secs) by {
      FormatTimeZero();
    }
    MinutesSecondsRoundTrip(minutes, secs);
  }

  lemma MinutesSecondsRoundTrip(minutes: nat, secs: nat)
    requires secs < 60
    ensures ParseTime(MinutesSeconds(minutes, secs)) == Some(60 * minutes + secs)
  {
    PaddedSeconds(secs);
    DecimalRoundTrip(minutes);
    ParseJoined(Decimal(minutes), PadStart(Decimal(secs), 2, '0'));
  }

  /** Distinct durations get distinct labels. */
  lemma FormatTimeInjective(a: nat, b: nat)
    requires FormatTime(a) == FormatTime(b)
    ensures a == b
  {
    FormatTimeRoundTrip(a);
    FormatTimeRoundTrip(b);
  }

  // ---------------------------------------------------------------------
  // Snapshot poll

  /** A snapshot pushed by a headset: its path lies in the streaming folder. */
  predicate IsStreamFrame(m: MediaFile)
  {
    StartsWith(m.path, "public/streaming")
  }

  /** The index of the newest frame: the first of the frames with the
      greatest `updatedAt`, as the head of a stable sort by descending
      `updatedAt` is. */
  function Latest(frames: seq<MediaFile>): (k: nat)
    requires |frames| > 0
    ensures k < |frames|
    ensures forall i :: 0 <= i < |frames| ==> frames[i].updatedAt <= frames[k].updatedAt
    ensures forall i :: 0 <= i < k ==> frames[i].updatedAt < frames[k].updatedAt
    decreases |frames|
  {
    if |frames| == 1 then 0
    else
      var k := Latest(frames[1..]) + 1;
      if frames[0].updatedAt >= frames[k].updatedAt then 0 else k
  }

  /** The newest streamed frame of a listing, if it has any. */
  function LatestFrame(listing: seq<MediaFile>): (latest: Option<MediaFile>)
    ensures latest.None? <==> forall m :: m in listing ==> !IsStreamFrame(m)
    ensures latest.Some? ==> latest.value in listing && IsStreamFrame(latest.value)
    ensures latest.Some? ==> forall m :: m in listing && IsStreamFrame(m) ==> m.updatedAt <= latest.value.updatedAt
  {
    var frames := Filter(listing, IsStreamFrame);
    FilterMembershipAll(listing, IsStreamFrame);
    if |frames| == 0 then None else Some(frames[Latest(frames)])
  }

  /** What one poll tick does. */
  datatype Tick =
    | Unchanged
      /** show `image`, remember `newId`, and delete the `stale` snapshot */
    | Swap(newId: string, image: string, stale: Option<string>)

  /** One tick of the poll, given the listing fetched (None when the fetch
      failed or returned no data) and the id of the frame on screen. */
  function PollTick(baseUrl: string, listing: Option<seq<MediaFile>>, lastStreamId: Option<string>): (t: Tick)
    ensures t.Unchanged? <==>
      listing.None? || LatestFrame(listing.value).None? || Some(LatestFrame(listing.value).value.id) == lastStreamId
    ensures t.Swap? ==>
      var latest := LatestFrame(listing.value).value;
      t.newId == latest.id && t.image == GetMediaFile(baseUrl, latest.path)
    ensures t.Swap? ==> t.stale == if lastStreamId.Some? && lastStreamId.value != "" then lastStreamId else None
    ensures t.Swap? && t.stale.Some? ==> t.stale.value != t.newId
  {
    if listing.None? then Unchanged
    else match LatestFrame(listing.value)
      case None => Unchanged
      case Some(latest) =>
        if Some(latest.id) == lastStreamId then Unchanged
        else Swap(latest.id, GetMediaFile(baseUrl, latest.path),
                  if lastStreamId.Some? && lastStreamId.value != "" then lastStreamId else None)
  }

  /** The id remembered after a tick. */
  function AfterTick(t: Tick, lastStreamId: Option<string>): Option<string>
  {
    if t.Swap? then Some(t.newId) else lastStreamId
  }

  /** Polling the same listing again changes nothing. */
  lemma PollTickIdempotent(baseUrl: string, listing: Option<seq<MediaFile>>, lastStreamId: Option<string>)
    ensures PollTick(baseUrl, listing, AfterTick(PollTick(baseUrl, listing, lastStreamId), lastStreamId)).Unchanged?
  {
  }

  /** The first frame ever shown deletes nothing. */
  lemma FirstFrameDeletesNothing(baseUrl: string, listing: Option<seq<MediaFile>>)
    ensures PollTick(baseUrl, listing, None).Swap? ==> PollTick(baseUrl, listing, None).stale == None
  {
  }

  // ---------------------------------------------------------------------
  // The page

  /** The page's state. Each handler takes the backend's answers as
      parameters (None when the request failed) and records the requests it
      sends in `requests`. */
  class StreamingPage {
    const baseUrl: string
    var isStreaming: bool
    var volume: int
    var selectedEvent: Option<Event>
    var events: seq<Event>
    var playlist: seq<MediaFile>
    var currentIndex: int
    var streamImage: Option<string>
    var lastStreamId: Option<string>
    var requests: seq<Request>
    /** The selected event as it was when the "ended" listeners were last
        registered. They are registered again only when the index or the
        playlist changes, and they report the streamed video to this event. */
    var listenerEvent: Option<Event>

    /** Indexes passed to the play handler are never negative, and the
        volume stays within the slider's range. */
    predicate Valid()
      reads this
    {
      0 <= currentIndex && 0 <= volume <= 100
    }

    constructor (baseUrl: string)
      ensures Valid()
      ensures this.baseUrl == baseUrl
      ensures !isStreaming && volume == 75 && selectedEvent == None && events == []
      ensures playlist == [] && currentIndex == 0
      ensures streamImage == None && lastStreamId == None && requests == []
      ensures listenerEvent == None
    {
      this.baseUrl := baseUrl;
      isStreaming, volume, selectedEvent, events := false, 75, None, [];
      playlist, currentIndex := [], 0;
      streamImage, lastStreamId, requests := None, None, [];
      listenerEvent := None;
    }

    /** First load: show the events and play-list the first one's videos.
        `eventsResponse` is None when the request fails, which changes
        nothing, and Some(None) when it answers without data, which empties
        the list. */
    method Load(eventsResponse: Option<Option<seq<Event>>>, mediaResponse: Option<seq<MediaFile>>)
      requires Valid()
      modifies this`events, this`selectedEvent, this`playlist, this`currentIndex, this`listenerEvent
      ensures Valid()
      ensures events == match eventsResponse
                        case None => old(events)
                        case Some(None) => []
                        case Some(Some(es)) => es
      ensures if eventsResponse.Some? && eventsResponse.value.Some? && eventsResponse.value.value != [] then
          var first := eventsResponse.value.value[0];
          && selectedEvent == Some(first)
          && (mediaResponse.Some? ==>
                playlist == Playlist(mediaResponse.value, first.videoList) && currentIndex == 0
                && listenerEvent == Some(first))
          && (mediaResponse.None? ==>
                playlist == old(playlist) && currentIndex == old(currentIndex) && listenerEvent == old(listenerEvent))
        else
          && selectedEvent == old(selectedEvent) && playlist == old(playlist) && currentIndex == old(currentIndex)
          && listenerEvent == old(listenerEvent)
    {
      match eventsResponse {
        case None =>
        case Some(None) =>
          events := [];
        case Some(Some(es)) =>
          events := es;
          if |es| > 0 {
            selectedEvent := Some(es[0]);
            LoadPlaylist(es[0].videoList, mediaResponse);
          }
      }
    }

    /** `loadPlaylist`: the listed media, in listing order, from the start.
        The filtered playlist is a new array, so on success the listeners are
        registered again and capture the selected event. */
    method LoadPlaylist(videoIds: seq<string>, mediaResponse: Option<seq<MediaFile>>)
      requires Valid()
      modifies this`playlist, this`currentIndex, this`listenerEvent
      ensures Valid()
      ensures mediaResponse.Some? ==>
        playlist == Playlist(mediaResponse.value, videoIds) && currentIndex == 0 && listenerEvent == selectedEvent
      ensures mediaResponse.None? ==>
        playlist == old(playlist) && currentIndex == old(currentIndex) && listenerEvent == old(listenerEvent)
    {
      if mediaResponse.Some? {
        playlist := Filter(mediaResponse.value, (v: MediaFile) => v.id in videoIds);
        currentIndex := 0;
        listenerEvent := selectedEvent;
      }
    }

    /** Choosing another event loads its playlist and stops streaming. When
        the media request fails the listeners keep the event they captured. */
    method SelectEvent(event: Event, mediaResponse: Option<seq<MediaFile>>)
      requires Valid()
      modifies this`selectedEvent, this`playlist, this`currentIndex, this`isStreaming, this`listenerEvent
      ensures Valid()
      ensures selectedEvent == Some(event) && !isStreaming
      ensures mediaResponse.Some? ==>
        playlist == Playlist(mediaResponse.value, event.videoList) && currentIndex == 0 && listenerEvent == Some(event)
      ensures mediaResponse.None? ==>
        playlist == old(playlist) && currentIndex == old(currentIndex) && listenerEvent == old(listenerEvent)
    {
      selectedEvent := Some(event);
      LoadPlaylist(event.videoList, mediaResponse);
      isStreaming := false;
    }

    /** `handlePlayVideo` as a closure that captured `reportTo` as its
        selected event: plays `index` and reports the id found there (or "")
        as that event's streaming field. A new index registers the listeners
        again, with the selected event of now. */
    method PlayVideoFor(index: int, reportTo: Option<Event>)
      requires Valid() && 0 <= index
      modifies this`currentIndex, this`isStreaming, this`requests, this`listenerEvent
      ensures Valid()
      ensures currentIndex == index && isStreaming
      ensures requests == old(requests) + StreamingReport(reportTo, StreamingValue(playlist, index))
      ensures listenerEvent == if index != old(currentIndex) then selectedEvent else old(listenerEvent)
    {
      if index != currentIndex {
        listenerEvent := selectedEvent;
      }
      currentIndex := index;
      isStreaming := true;
      var value := if 0 <= index < |playlist| then playlist[index].id else "";
      requests := requests + StreamingReport(reportTo, value);
    }

    /** Playing `index` from the page: the closure of the current render,
        which reports to the selected event. */
    method PlayVideo(index: int)
      requires Valid() && 0 <= index
      modifies this`currentIndex, this`isStreaming, this`requests, this`listenerEvent
      ensures Valid()
      ensures currentIndex == index && isStreaming
      ensures requests == old(requests) + StreamingReport(selectedEvent, StreamingValue(playlist, index))
      ensures listenerEvent == if index != old(currentIndex) then selectedEvent else old(listenerEvent)
    {
      PlayVideoFor(index, selectedEvent);
    }

    /** Stops streaming and reports "" as the selected event's streaming field. */
    method PauseVideo()
      requires Valid()
      modifies this`isStreaming, this`requests
      ensures Valid()
      ensures !isStreaming
      ensures requests == old(requests) + StreamingReport(selectedEvent, "")
    {
      isStreaming := false;
      requests := requests + StreamingReport(selectedEvent, "");
    }

    /** The stream button: pause while streaming, otherwise play the current index. */
    method ToggleStream()
      requires Valid()
      modifies this`currentIndex, this`isStreaming, this`requests, this`listenerEvent
      ensures Valid()
      ensures listenerEvent == old(listenerEvent)
      ensures isStreaming == !old(isStreaming) && currentIndex == old(currentIndex)
      ensures requests == old(requests) +
        StreamingReport(selectedEvent, if old(isStreaming) then "" else StreamingValue(playlist, currentIndex))
    {
      if isStreaming {
        PauseVideo();
      } else {
        PlayVideo(currentIndex);
      }
    }

    /** The "ended" notification. Two listeners are registered for it, and
      both run the closure of the render that last registered them: the
      index and playlist are the current ones (a change to either registers
      them again), but the event they report to is `listenerEvent`, which
      differs from the selected event after a selection whose media request
      failed. The cursor advances once and the report is sent twice. */
    method HandleEnded()
      requires Valid()
      modifies this`currentIndex, this`isStreaming, this`requests, this`listenerEvent
      ensures Valid()
      ensures currentIndex == NextIndex(old(currentIndex), |playlist|) && isStreaming
      ensures |playlist| > 0 ==> CurrentVideo(playlist, currentIndex).Some?
      ensures var report := StreamingReport(old(listenerEvent), StreamingValue(playlist, currentIndex));
        requests == old(requests) + report + report
      ensures listenerEvent == if currentIndex != old(currentIndex) then selectedEvent else old(listenerEvent)
    {
      var capturedIndex, capturedLength, capturedEvent := currentIndex, |playlist|, listenerEvent;
      // first listener
      var next := capturedIndex + 1;
      if next >= capturedLength { next := 0; }
      PlayVideoFor(next, capturedEvent);
      // second listener, same closure
      var next' := capturedIndex + 1;
      if next' >= capturedLength { next' := 0; }
      PlayVideoFor(next', capturedEvent);
    }

    /** The mute button. */
    method ToggleMute()
      requires Valid()
      modifies this`volume
      ensures Valid()
      ensures volume == MuteToggle(old(volume))
    {
      volume := if volume == 0 then 75 else 0;
    }

    /** The volume slider, which moves in whole steps from 0 to 100. */
    method SetVolume(level: int)
      requires Valid() && 0 <= level <= 100
      modifies this`volume
      ensures Valid()
      ensures volume == level
    {
      volume := level;
    }

    /** One tick of the snapshot poll (`fetchStreamFrame`). */
    method FetchStreamFrame(listing: Option<seq<MediaFile>>)
      requires Valid()
      modifies this`lastStreamId, this`streamImage, this`requests
      ensures Valid()
      ensures match PollTick(baseUrl, listing, old(lastStreamId))
        case Unchanged =>
          lastStreamId == old(lastStreamId) && streamImage == old(streamImage) && requests == old(requests)
        case Swap(newId, image, stale) =>
          && lastStreamId == Some(newId) && streamImage == Some(image)
          && requests == old(requests) + (if stale.Some? then [DeleteMedia(stale.value)] else [])
    {
      if listing.None? {
        return;
      }
      var frames := Filter(listing.value, IsStreamFrame);
      if |frames| == 0 {
        return;
      }
      var latest := frames[Latest(frames)];
      if Some(latest.id) != lastStreamId {
        if lastStreamId.Some? && lastStreamId.value != "" {
          requests := requests + [DeleteMedia(lastStreamId.value)];
        }
        streamImage := Some(GetMediaFile(baseUrl, latest.path));
        lastStreamId := Some(latest.id);
      }
    }
  }

  /** After the first event `a` is loaded with its playlist, selecting `b`
      with a failed media request leaves the listeners on `a`: the next
      ending reports the streamed video to `a`, twice, and nothing to `b`. */
  method EndedAfterFailedSelection(a: Event, b: Event, listing: seq<MediaFile>) returns (sent: seq<Request>)
    ensures |sent| == 2
    ensures forall r :: r in sent ==> r.UpdateEvent? && r.eventId == a.id
  {
    var page := new StreamingPage("");
    page.Load(Some(Some([a, b])), Some(listing));
    page.SelectEvent(b, None);
    page.HandleEnded();
    sent := page.requests;
  }
}
