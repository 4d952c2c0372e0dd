/** The event-details page: a credential gate in front of one event, the
    event form in create and edit mode, and the event's playlist, which the
    page edits by sending the whole new list of media ids. */
module EventDetails {
  import opened Records
  import opened Sequences

  // ---------------------------------------------------------------------
  // Route and gate

  /** The route parameter is present and not empty (JavaScript truthiness). */
  predicate HasEventId(eventId: Option<string>)
  {
    eventId.Some? && eventId.value != ""
  }

  /** The route "/events/create" opens the page in create mode. */
  predicate IsCreateMode(eventId: Option<string>)
  {
    eventId == Some("create")
  }

  /** The gate opens when both typed credentials equal the event's own. */
  predicate CredentialsMatch(username: string, password: string, e: Event)
  {
    username == e.username && password == e.password
  }

  /** The login button is disabled while a field is empty or a check runs. */
  predicate LoginDisabled(username: string, password: string, authLoading: bool)
  {
    username == "" || password == "" || authLoading
  }

  /** An event stored without a username or without a password can never be
      opened from the form: the button stays disabled for the only pair of
      credentials that would match. */
  lemma EmptyCredentialsNeverUnlock(username: string, password: string, authLoading: bool, e: Event)
    requires e.username == "" || e.password == ""
    requires !LoginDisabled(username, password, authLoading)
    ensures !CredentialsMatch(username, password, e)
  {
  }

  // ---------------------------------------------------------------------
  // Event form

  /** The blank event of create mode, stamped with the creation time. */
  function DraftEvent(now: string): Event
  {
    Event("", "", "", "", "", [], "draft", "", "", now, now)
  }

  /** The value of an event's text field under its JSON key, or None for a
      key that names no text field. */
  function FieldOf(e: Event, key: string): Option<string>
  {
    if key == "_id" then Some(e.id)
    else if key == "title" then Some(e.title)
    else if key == "description" then Some(e.description)
    else if key == "intro" then Some(e.intro)
    else if key == "logo" then Some(e.logo)
    else if key == "streaming" then Some(e.streaming)
    else if key == "username" then Some(e.username)
    else if key == "password" then Some(e.password)
    else None
  }

  /** The body sent on save: title, description, password and intro, and
      the username only when the event is being created (it cannot be
      changed afterwards). Each entry is the event's own field. */
  function SavePayload(isCreateMode: bool, e: Event): (fields: map<string, Value>)
    ensures "username" in fields <==> isCreateMode
    ensures fields.Keys == {"title", "description", "password", "intro"} + (if isCreateMode then {"username"} else {})
    ensures forall k :: k in fields ==> fields[k].Text? && FieldOf(e, k) == Some(fields[k].text)
  {
    var common := map["title" := Text(e.title), "description" := Text(e.description),
                       "password" := Text(e.password), "intro" := Text(e.intro)];
    if isCreateMode then common["username" := Text(e.username)] else common
  }

  /** The request a save sends: a creation in create mode, otherwise an
      update of the event's own id; both carry the save payload. */
  function SaveRequest(isCreateMode: bool, e: Event): (r: Request)
    ensures r.CreateEvent? <==> isCreateMode
    ensures r.UpdateEvent? ==> r.eventId == e.id
    ensures r.CreateEvent? || r.UpdateEvent?
    ensures r.fields == SavePayload(isCreateMode, e)
  {
    if isCreateMode then CreateEvent(SavePayload(true, e)) else UpdateEvent(e.id, SavePayload(false, e))
  }

  /** Once a creation has answered with the new event, the route names that
      event, so the next save of it is an update that no longer carries the
      username. */
  lemma CreatedEventSavesAsUpdate(created: Event, edited: Event)
    requires created.id != "create"
    ensures !IsCreateMode(Some(created.id))
    ensures SaveRequest(IsCreateMode(Some(created.id)), edited) == UpdateEvent(edited.id, SavePayload(false, edited))
    ensures "username" !in SaveRequest(IsCreateMode(Some(created.id)), edited).fields
  {
  }

  /** A freshly created event is saved with every text field empty. */
  lemma DraftPayloadIsBlank(now: string)
    ensures forall k :: k in SavePayload(true, DraftEvent(now)) ==> SavePayload(true, DraftEvent(now))[k] == Text("")
  {
  }

  /** The inputs of the event form. */
  datatype FormField = TitleField | UsernameField | PasswordField | DescriptionField

  /** The JSON key of a form input. */
  function KeyOf(f: FormField): string
  {
    match f
    case TitleField => "title"
    case UsernameField => "username"
    case PasswordField => "password"
    case DescriptionField => "description"
  }

  /** The event with one form input replaced: `{ ...event, [key]: value }`. */
  function WithField(e: Event, f: FormField, value: string): (r: Event)
    ensures FieldOf(r, KeyOf(f)) == Some(value)
    ensures forall k :: k != KeyOf(f) ==> FieldOf(r, k) == FieldOf(e, k)
    ensures r.videoList == e.videoList && r.createdAt == e.createdAt && r.updatedAt == e.updatedAt
  {
    match f
    case TitleField => e.(title := value)
    case UsernameField => e.(username := value)
    case PasswordField => e.(password := value)
    case DescriptionField => e.(description := value)
  }

  /** Whether an input accepts typing: the username is an input only in create
      mode (elsewhere it is shown read-only); the others follow edit mode. */
  predicate Editable(f: FormField, isCreateMode: bool, isEditing: bool)
  {
    match f
    case UsernameField => isCreateMode
    case _ => isEditing
  }

  // ---------------------------------------------------------------------
  // Playlist

  /** The media offered by the "add video" picker: the 360° videos of the
      whole listing, in listing order. */
  function PickerChoices(allVideos: seq<MediaFile>): seq<MediaFile>
  {
    Filter(allVideos, IsVr360)
  }

  /** The picker offers exactly the listed 360° videos, in listing order. */
  lemma PickerChoicesSpec(allVideos: seq<MediaFile>)
    ensures IsSubsequence(PickerChoices(allVideos), allVideos)
    ensures forall v :: v in PickerChoices(allVideos) <==> v in allVideos && IsVr360(v)
  {
    FilterIsSubsequence(allVideos, IsVr360);
    forall v ensures v in Filter(allVideos, IsVr360) <==> v in allVideos && IsVr360(v) {
      FilterMembership(allVideos, IsVr360, v);
    }
  }

  /** The id list sent when a video is removed: every occurrence of its id
      goes, the others keep their order. */
  function WithoutId(ids: seq<string>, id: string): seq<string>
  {
    Filter(ids, (x: string) => x != id)
  }

  /** Removal drops every occurrence of the id and nothing else, in order. */
  lemma WithoutIdSpec(ids: seq<string>, id: string)
    ensures IsSubsequence(WithoutId(ids, id), ids)
    ensures id !in WithoutId(ids, id)
    ensures forall x :: x != id ==> multiset(WithoutId(ids, id))[x] == multiset(ids)[x]
  {
    var p := (x: string) => x != id;
    FilterIsSubsequence(ids, p);
    FilterMembership(ids, p, id);
    forall x | x != id ensures multiset(Filter(ids, p))[x] == multiset(ids)[x] {
      FilterMultiset(ids, p, x);
    }
  }

  /** When the shown playlist was built from a listing and an id list, the
      local removal gives exactly the playlist that the sent id list yields
      on the same listing: the two stay in step. */
  lemma {:induction false} RemoveKeepsPlaylistInSync(listing: seq<MediaFile>, ids: seq<string>, id: string)
    ensures WithoutMedia(Playlist(listing, ids), id) == Playlist(listing, WithoutId(ids, id))
  {
    var inIds := (v: MediaFile) => v.id in ids;
    var notId := (v: MediaFile) => v.id != id;
    var both := (v: MediaFile) => v.id in ids && v.id != id;
    var inRest := (v: MediaFile) => v.id in WithoutId(ids, id);
    FilterFilter(listing, inIds, notId, both);
    forall i | 0 <= i < |listing| ensures both(listing[i]) == inRest(listing[i]) {
      FilterMembership(ids, (x: string) => x != id, listing[i].id);
    }
    FilterCongruent(listing, both, inRest);
  }

  /** The id list sent when a video is added: the old list with its id at the
      end, even when it is already there. */
  function WithId(ids: seq<string>, id: string): (r: seq<string>)
    ensures |r| == |ids| + 1 && r[..|ids|] == ids && r[|ids|] == id
  {
    ids + [id]
  }

  /** Adding a video lists every media of the old playlist and the added one,
      and no other, provided the listing names each id once and holds the
      added video. */
  lemma AddKeepsPlaylistMembers(listing: seq<MediaFile>, ids: seq<string>, video: MediaFile)
    requires forall i, j :: 0 <= i < |listing| && 0 <= j < |listing| && listing[i].id == listing[j].id ==> i == j
    requires video in listing
    ensures forall v :: v in Playlist(listing, ids) + [video] <==> v in Playlist(listing, WithId(ids, video.id))
  {
    PlaylistSpec(listing, ids);
    PlaylistSpec(listing, WithId(ids, video.id));
  }

  /** Adding a video that is already listed shows it twice, while the sent
      id list, once reloaded, yields it once: the local append does not
      mirror the backend's filter. */
  lemma AddRepeatsListedVideo(video: MediaFile)
    ensures Playlist([video], [video.id]) + [video] == [video, video]
    ensures Playlist([video], WithId([video.id], video.id)) == [video]
  {
    assert Filter([video], (v: MediaFile) => v.id in [video.id]) == [video];
    assert Filter([video], (v: MediaFile) => v.id in [video.id, video.id]) == [video];
  }

  // ---------------------------------------------------------------------
  // The page

  class EventDetailsPage {
    var eventId: Option<string>
    var isAuthenticated: bool
    var isEditing: bool
    var authUsername: string
    var authPassword: string
    var event: Option<Event>
    var videos: seq<MediaFile>
    var allVideos: seq<MediaFile>
    var loading: bool
    var requests: seq<Request>

    /** Create mode is decided by the route, read on every render. */
    predicate CreateMode()
      reads this
    {
      IsCreateMode(eventId)
    }

    /** The page shows the credential form instead of the event. */
    predicate ShowsAuthForm()
      reads this
    {
      !CreateMode() && !isAuthenticated
    }

    /** Create mode is always open, and the event is held exactly when the
        gate is open, so no detail of it is on the page before the
        credentials have been checked. */
    predicate Valid()
      reads this
    {
      && (CreateMode() ==> isAuthenticated)
      && (isAuthenticated <==> event.Some?)
    }

    /** The initial state: create mode starts open and editing a draft;
        any other route starts locked, with no event and an empty form. */
    constructor (eventId: Option<string>, now: string)
      ensures Valid()
      ensures this.eventId == eventId
      ensures isAuthenticated == isEditing == IsCreateMode(eventId)
      ensures event == if IsCreateMode(eventId) then Some(DraftEvent(now)) else None
      ensures authUsername == "" && authPassword == ""
      ensures videos == [] && allVideos == [] && loading && requests == []
    {
      this.eventId := eventId;
      isAuthenticated, isEditing := IsCreateMode(eventId), IsCreateMode(eventId);
      authUsername, authPassword := "", "";
      event := if IsCreateMode(eventId) then Some(DraftEvent(now)) else None;
      videos, allVideos, loading, requests := [], [], true, [];
    }

    /** The mount effect: without an event to open (no id, or create mode)
        the whole media listing is loaded for the picker; loading ends in
        every case. */
    method LoadAllVideos(media: Option<seq<MediaFile>>)
      requires Valid()
      modifies this`allVideos, this`loading
      ensures Valid()
      ensures !loading
      ensures allVideos == if (!HasEventId(eventId) || CreateMode()) && media.Some? then media.value else old(allVideos)
    {
      if !HasEventId(eventId) || CreateMode() {
        if media.Some? {
          allVideos := media.value;
        }
      }
      loading := false;
    }

    /** Typing into the credential form. */
    method EditAuthForm(username: string, password: string)
      requires Valid()
      modifies this`authUsername, this`authPassword
      ensures Valid()
      ensures authUsername == username && authPassword == password
    {
      authUsername, authPassword := username, password;
    }

    /** `handleAuth`: fetch the event and open the gate only when both typed
        credentials equal its stored ones; then load the listing and show the
        event's playlist. `fetched` and `media` are the two responses, None
        when the request fails. A check that does not open the gate leaves
        the credential form on screen. */
    method HandleAuth(fetched: Option<Event>, media: Option<seq<MediaFile>>)
      requires Valid()
      modifies this`isAuthenticated, this`event, this`allVideos, this`videos
      ensures Valid()
      ensures var opens := HasEventId(eventId) && !CreateMode() && fetched.Some?
                           && CredentialsMatch(authUsername, authPassword, fetched.value);
        && (ShowsAuthForm() <==> old(ShowsAuthForm()) && !opens)
        && if opens then
          && isAuthenticated && event == fetched
          && (media.Some? ==> allVideos == media.value && videos == Playlist(media.value, fetched.value.videoList))
          && (media.None? ==> allVideos == old(allVideos) && videos == old(videos))
        else
          isAuthenticated == old(isAuthenticated) && event == old(event)
          && allVideos == old(allVideos) && videos == old(videos)
    {
      if !HasEventId(eventId) || CreateMode() {
        return;
      }
      match fetched
      case None =>
      case Some(e) =>
        if CredentialsMatch(authUsername, authPassword, e) {
          isAuthenticated := true;
          event := Some(e);
          if media.Some? {
            allVideos := media.value;
            videos := Playlist(media.value, e.videoList);
          }
        }
    }

    /** Typing into an input of the event form: the event takes the value
        when the input is enabled; nothing happens otherwise. */
    method EditEvent(f: FormField, value: string)
      requires Valid()
      modifies this`event
      ensures Valid()
      ensures event == if old(event).Some? && Editable(f, CreateMode(), isEditing)
                       then Some(WithField(old(event).value, f, value)) else old(event)
    {
      if event.Some? && Editable(f, CreateMode(), isEditing) {
        event := Some(WithField(event.value, f, value));
      }
    }

    /** `handleSave`: create or update the event with the save payload; on
        success the page shows the backend's event and leaves edit mode, and
        a creation moves the route to the new event's id, which ends create
        mode unless that id is itself "create". */
    method HandleSave(response: Option<Event>)
      requires Valid()
      modifies this`requests, this`event, this`isEditing, this`eventId
      ensures Valid()
      ensures old(event).None? ==>
        requests == old(requests) && event == old(event) && isEditing == old(isEditing) && eventId == old(eventId)
      ensures old(event).Some? ==>
        && requests == old(requests) + [SaveRequest(old(CreateMode()), old(event).value)]
        && (response.Some? ==> event == response && !isEditing)
        && (response.None? ==> event == old(event) && isEditing == old(isEditing))
        && eventId == if old(CreateMode()) && response.Some? then Some(response.value.id) else old(eventId)
    {
      if event.None? {
        return;
      }
      var e := event.value;
      var creating := CreateMode();
      requests := requests + [SaveRequest(creating, e)];
      if response.Some? {
        if creating {
          eventId := Some(response.value.id);
        }
        event := response;
        isEditing := false;
      }
    }

    /** The edit button: it saves while editing and enters edit mode
        otherwise. */
    method ToggleEdit(response: Option<Event>)
      requires Valid()
      modifies this`requests, this`event, this`isEditing, this`eventId
      ensures Valid()
      ensures !old(isEditing) ==>
        isEditing && event == old(event) && requests == old(requests) && eventId == old(eventId)
      ensures old(isEditing) && old(event).None? ==>
        isEditing && event == old(event) && requests == old(requests) && eventId == old(eventId)
      ensures old(isEditing) && old(event).Some? ==>
        && requests == old(requests) + [SaveRequest(old(CreateMode()), old(event).value)]
        && (response.Some? ==> event == response && !isEditing)
        && (response.None? ==> event == old(event) && isEditing)
        && eventId == if old(CreateMode()) && response.Some? then Some(response.value.id) else old(eventId)
    {
      if isEditing {
        HandleSave(response);
      } else {
        isEditing := true;
      }
    }

    /** `handleAddVideo`: send the id list with the video's id appended; on
        success show the backend's event and append the video to the shown
        playlist. */
    method HandleAddVideo(video: MediaFile, response: Option<Event>)
      requires Valid()
      modifies this`requests, this`event, this`videos
      ensures Valid()
      ensures old(event).None? ==> requests == old(requests) && event == old(event) && videos == old(videos)
      ensures old(event).Some? ==>
        && requests == old(requests) + [UpdateEvent(old(event).value.id,
                                          map["video_list" := TextList(WithId(old(event).value.videoList, video.id))])]
        && (response.Some? ==> event == response && videos == old(videos) + [video])
        && (response.None? ==> event == old(event) && videos == old(videos))
    {
      if event.None? {
        return;
      }
      var e := event.value;
      var newList := WithId(e.videoList, video.id);
      requests := requests + [UpdateEvent(e.id, map["video_list" := TextList(newList)])];
      if response.Some? {
        event := response;
        videos := videos + [video];
      }
    }

    /** `handleRemoveVideo`: send the id list without any occurrence of the
        video's id; on success show the backend's event and drop every entry
        with that id from the shown playlist. */
    method HandleRemoveVideo(video: MediaFile, response: Option<Event>)
      requires Valid()
      modifies this`requests, this`event, this`videos
      ensures Valid()
      ensures old(event).None? ==> requests == old(requests) && event == old(event) && videos == old(videos)
      ensures old(event).Some? ==>
        && requests == old(requests) + [UpdateEvent(old(event).value.id,
                                          map["video_list" := TextList(WithoutId(old(event).value.videoList, video.id))])]
        && (response.Some? ==> event == response && videos == WithoutMedia(old(videos), video.id))
        && (response.None? ==> event == old(event) && videos == old(videos))
    {
      if event.None? {
        return;
      }
      var e := event.value;
      var newList := WithoutId(e.videoList, video.id);
      requests := requests + [UpdateEvent(e.id, map["video_list" := TextList(newList)])];
      if response.Some? {
        event := response;
        videos := WithoutMedia(videos, video.id);
      }
    }
  }
}
