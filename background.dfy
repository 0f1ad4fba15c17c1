/** The background service worker of the GLPI ticket monitor
    (background.js): the polling tick that detects a new ticket, the
    alarm that schedules it, the event handlers that (re)arm the alarm and
    clear the badge, and the lazily created offscreen document that plays
    the alert sound.

    The browser is abstracted into one state: the five keys the worker
    reads from `chrome.storage.local`, the action badge, the offscreen
    documents, the `play` messages sent to them, and the alarm registry.
    Each handler is a spec function on that state (`Tick`,
    `RegisterAlarm`, ...) and a method of class `Extension` proved to
    behave as that function. The answers of the GLPI server are an input
    (`GlpiResponse`), not calls. */
module Background {
  import opened Wrappers
  import opened Tickets

  // ---- Stored configuration ----

  /** The keys `getStoredConfig` reads (background.js:3-6); an absent key
      is `None`. `checkInterval` is a number of minutes. */
  datatype Storage = Storage(
    glpiUrl: Option<string>,
    appToken: Option<string>,
    userToken: Option<string>,
    lastTicketId: Option<int>,
    checkInterval: Option<real>)

  /** JavaScript truthiness of a stored string: absent and `''` are falsy. */
  predicate Truthy(s: Option<string>) {
    s.Some? && s.value != ""
  }

  /** The tick only talks to the server when URL and both tokens are set. */
  predicate Configured(st: Storage) {
    Truthy(st.glpiUrl) && Truthy(st.appToken) && Truthy(st.userToken)
  }

  /** `config.lastTicketId || 0`: the watermark the tick compares against. */
  function Watermark(stored: Option<int>): (w: int)
    ensures stored.None? ==> w == 0
    ensures stored.Some? ==> w == stored.value
  {
    match stored
    case None => 0
    case Some(v) => if v == 0 then 0 else v
  }

  // ---- What the GLPI server answers ----

  /** The outcome of the two requests of one tick (background.js:39-65).
      `AuthFailed`: `initSession` answered a non-ok status (line 43), or
      its `fetch` rejected (line 39).
      `SearchFailed`: the ticket search answered a non-ok status (line 63),
      or its `fetch` rejected (line 59).
      `MalformedBody`: a body was not JSON, so `.json()` threw (lines 44, 65).
      `SearchOk`: the search body, whose `data` field may be absent. */
  datatype GlpiResponse =
    | AuthFailed
    | SearchFailed
    | MalformedBody
    | SearchOk(data: Option<seq<Row>>)

  /** `responseData.data || []` (background.js:66). */
  function Page(data: Option<seq<Row>>): seq<Row> {
    data.GetOr([])
  }

  /** Which branch of `checkNewTickets` one tick takes, as its console
      messages tell: returned before any request, caught an error, found
      no ticket, found nothing newer than the watermark, or detected one. */
  datatype TickReport =
    | ConfigMissing
    | RequestFailed
    | NoTickets
    | NothingNew(latestId: int)
    | NewTicket(id: int)

  /** The decision part of `checkNewTickets` (background.js:29-86). */
  function Classify(st: Storage, response: GlpiResponse): (r: TickReport)
    ensures r == ConfigMissing <==> !Configured(st)
    ensures r == RequestFailed <==> Configured(st) && !response.SearchOk?
    ensures r == NoTickets <==> Configured(st) && response.SearchOk? && |Page(response.data)| == 0
    ensures r.NewTicket? ==>
      response.SearchOk? && IsMaxId(Page(response.data), r.id) && r.id > Watermark(st.lastTicketId)
    ensures r.NothingNew? ==>
      response.SearchOk? && IsMaxId(Page(response.data), r.latestId) && r.latestId <= Watermark(st.lastTicketId)
  {
    if !Configured(st) then ConfigMissing
    else
      match response
      case SearchOk(data) =>
        var tickets := Page(data);
        if |tickets| == 0 then NoTickets
        else
          var latest := MaxId(tickets);
          if latest > Watermark(st.lastTicketId) then NewTicket(latest) else NothingNew(latest)
      case _ => RequestFailed
  }

  // ---- The abstract browser state ----

  /** One registered alarm, in minutes. */
  datatype Alarm = Alarm(delayInMinutes: real, periodInMinutes: real)

  /** The only alarm the worker creates or listens for. */
  const AlarmName: string := "checkTicketsAlarm"

  /** Badge written when a new ticket is detected (background.js:79-80). */
  const AlertText: string := "!"
  const AlertColor: string := "#FF0000"

  /** Everything a handler can read or change. `badgeColor` is `None`
      while the browser's default colour is shown; `offscreenDocuments`
      counts the offscreen documents that exist; `playMessages` counts the
      `{type: 'play'}` messages sent, one per sound requested. */
  datatype Snapshot = Snapshot(
    storage: Storage,
    badgeText: string,
    badgeColor: Option<string>,
    offscreenDocuments: nat,
    playMessages: nat,
    alarms: map<string, Alarm>)

  /** At most one offscreen document, and no alarm other than
      `checkTicketsAlarm`. */
  predicate Bounded(s: Snapshot) {
    && s.offscreenDocuments <= 1
    && s.alarms.Keys <= {AlarmName}
  }

  /** What every handler keeps: `Bounded`, and `checkTicketsAlarm`, when
      registered, has the one-minute warm-up delay and runs at the
      interval currently stored. */
  predicate Inv(s: Snapshot) {
    && Bounded(s)
    && (AlarmName in s.alarms ==>
          s.alarms[AlarmName] == Alarm(1.0, AlarmPeriod(s.storage.checkInterval)))
  }

  /** `playNotificationSound` (background.js:8-23): create the offscreen
      document only when none exists, then send `play`. */
  function PlaySound(s: Snapshot): Snapshot {
    var hasDoc := s.offscreenDocuments > 0;
    s.(offscreenDocuments := if hasDoc then s.offscreenDocuments else s.offscreenDocuments + 1,
       playMessages := s.playMessages + 1)
  }

  /** The effects of a detection (background.js:77-80): a sound, the new
      watermark, and the red `!` badge. */
  function Notify(s: Snapshot, id: int): Snapshot {
    var t := PlaySound(s);
    t.(storage := t.storage.(lastTicketId := Some(id)),
       badgeText := AlertText,
       badgeColor := Some(AlertColor))
  }

  /** One tick of `checkNewTickets`: every branch but a detection leaves
      the state as it was (the early return, the caught error, the empty
      page, and the page with nothing newer). */
  function Tick(s: Snapshot, response: GlpiResponse): Snapshot {
    match Classify(s.storage, response)
    case NewTicket(id) => Notify(s, id)
    case _ => s
  }

  /** `config.checkInterval || 0.5` (background.js:97). */
  function AlarmPeriod(checkInterval: Option<real>): (p: real)
    ensures checkInterval.Some? && checkInterval.value != 0.0 ==> p == checkInterval.value
    ensures checkInterval.None? || checkInterval.value == 0.0 ==> p == 0.5
  {
    match checkInterval
    case Some(v) => if v == 0.0 then 0.5 else v
    case None => 0.5
  }

  /** `createOrUpdateAlarm` (background.js:95-105): `chrome.alarms.create`
      under a name already registered replaces that alarm. */
  function RegisterAlarm(s: Snapshot): Snapshot {
    s.(alarms := s.alarms[AlarmName := Alarm(1.0, AlarmPeriod(s.storage.checkInterval))])
  }

  /** `onAlarm` (background.js:107-111). */
  function AlarmRang(s: Snapshot, name: string, response: GlpiResponse): Snapshot {
    if name == AlarmName then Tick(s, response) else s
  }

  /** `storage.onChanged` (background.js:113-118): `changedKeys` are the
      keys of the `changes` object. */
  function StorageChanged(s: Snapshot, changedKeys: set<string>): Snapshot {
    if "checkInterval" in changedKeys then RegisterAlarm(s) else s
  }

  /** The interval the options page stores is `parseFloat(value)` when
      that is at least 0.5, and 0.5 otherwise (options.js:12; `None`
      stands for NaN). */
  function SavedInterval(parsed: Option<real>): (v: real)
    ensures v >= 0.5
    ensures parsed.Some? && parsed.value >= 0.5 ==> v == parsed.value
    ensures !(parsed.Some? && parsed.value >= 0.5) ==> v == 0.5
  {
    if parsed.Some? && parsed.value >= 0.5 then parsed.value else 0.5
  }

  /** The keys whose stored value differs between `before` and `after`:
      the keys of the `changes` object `storage.onChanged` reports. */
  function ChangedKeys(before: Storage, after: Storage): set<string> {
    (if before.glpiUrl != after.glpiUrl then {"glpiUrl"} else {})
    + (if before.appToken != after.appToken then {"appToken"} else {})
    + (if before.userToken != after.userToken then {"userToken"} else {})
    + (if before.lastTicketId != after.lastTicketId then {"lastTicketId"} else {})
    + (if before.checkInterval != after.checkInterval then {"checkInterval"} else {})
  }

  /** `save_options` (options.js:2-13) writes the URL, both tokens (the
      form's strings, possibly empty) and the clamped interval; the write
      then fires `storage.onChanged` (background.js:113-118). */
  function SavedOptions(s: Snapshot, url: string, appToken: string, userToken: string,
                        parsed: Option<real>): Snapshot
  {
    var written := s.storage.(glpiUrl := Some(url), appToken := Some(appToken),
                              userToken := Some(userToken),
                              checkInterval := Some(SavedInterval(parsed)));
    StorageChanged(s.(storage := written), ChangedKeys(s.storage, written))
  }

  /** `action.onClicked` (background.js:130-132). */
  function IconClicked(s: Snapshot): Snapshot {
    s.(badgeText := "")
  }

  /** The events the worker listens for (background.js:107-132). The
      response of an alarm event is what the server would answer to the
      tick it starts. */
  datatype Event =
    | AlarmEvent(name: string, response: GlpiResponse)
    | OptionsSaved(url: string, appToken: string, userToken: string, parsed: Option<real>)
    | Installed
    | Startup
    | ActionClicked

  function Step(s: Snapshot, e: Event): Snapshot {
    match e
    case AlarmEvent(name, response) => AlarmRang(s, name, response)
    case OptionsSaved(url, app, user, parsed) => SavedOptions(s, url, app, user, parsed)
    case Installed => RegisterAlarm(s)
    case Startup => RegisterAlarm(s)
    case ActionClicked => IconClicked(s)
  }

  /** The events handled one after another, each atomically. */
  function Run(s: Snapshot, events: seq<Event>): Snapshot
    decreases |events|
  {
    if events == [] then s else Run(Step(s, events[0]), events[1..])
  }

  // ---- Properties of the tick ----

  /** Missing URL or token: the tick returns before any request and
      changes nothing (background.js:29-32). */
  lemma UnconfiguredTickChangesNothing(s: Snapshot, response: GlpiResponse)
    requires !Configured(s.storage)
    ensures Classify(s.storage, response) == ConfigMissing
    ensures Tick(s, response) == s
  {
  }

  /** A failed session, a failed search or an unreadable body is caught
      and leaves everything unchanged (background.js:43, 63, 87-89). */
  lemma FailedRequestChangesNothing(s: Snapshot, response: GlpiResponse)
    requires !response.SearchOk?
    ensures Tick(s, response) == s
  {
  }

  /** An absent `data` field is an empty page, and an empty page changes
      nothing (background.js:66-68, 84-86). */
  lemma EmptyPageChangesNothing(s: Snapshot)
    ensures Tick(s, SearchOk(None)) == s
    ensures Tick(s, SearchOk(Some([]))) == s
  {
  }

  /** A detection requests exactly one sound, writes the page's largest id
      as the watermark, sets the red `!` badge and touches nothing else;
      without a detection, nothing changes (background.js:75-83). */
  lemma TickEffects(s: Snapshot, response: GlpiResponse)
    ensures var t := Tick(s, response);
      match Classify(s.storage, response)
      case NewTicket(id) =>
        && response.SearchOk?
        && id == MaxId(Page(response.data))
        && t.storage == s.storage.(lastTicketId := Some(id))
        && t.badgeText == AlertText && t.badgeColor == Some(AlertColor)
        && t.playMessages == s.playMessages + 1
        && t.offscreenDocuments == (if s.offscreenDocuments == 0 then 1 else s.offscreenDocuments)
        && t.alarms == s.alarms
      case _ => t == s
  {
  }

  /** The watermark is written only to a larger value, and then exactly
      to the largest id on the fetched page. */
  lemma TickNeverLowersWatermark(s: Snapshot, response: GlpiResponse)
    ensures Watermark(Tick(s, response).storage.lastTicketId) >= Watermark(s.storage.lastTicketId)
    ensures Tick(s, response).storage.lastTicketId != s.storage.lastTicketId ==>
      && response.SearchOk?
      && |Page(response.data)| > 0
      && Tick(s, response).storage.lastTicketId == Some(MaxId(Page(response.data)))
      && MaxId(Page(response.data)) > Watermark(s.storage.lastTicketId)
  {
  }

  /** A second tick over the same page changes nothing: the first tick
      already raised the watermark to the page's largest id. */
  lemma TickIdempotent(s: Snapshot, response: GlpiResponse)
    ensures Tick(Tick(s, response), response) == Tick(s, response)
  {
  }

  /** The tick does not depend on the order of the rows the server
      returns: that is what the client-side sort is for. */
  lemma TickIgnoresRowOrder(s: Snapshot, rows: seq<Row>, reordered: seq<Row>)
    requires multiset(rows) == multiset(reordered)
    ensures Tick(s, SearchOk(Some(rows))) == Tick(s, SearchOk(Some(reordered)))
  {
    assert |rows| == |multiset(rows)| == |multiset(reordered)| == |reordered|;
    if |rows| > 0 {
      MaxIdOfPermutation(rows, reordered);
    }
  }

  /** An unsorted page [101, 105, 50] over watermark 100: the tick
      detects 105, not the first row. */
  lemma UnsortedPageDetectsLargest(s: Snapshot)
    requires Configured(s.storage) && s.storage.lastTicketId == Some(100)
    ensures var page := [Row(101, map[]), Row(105, map[]), Row(50, map[])];
      && Classify(s.storage, SearchOk(Some(page))) == NewTicket(105)
      && Tick(s, SearchOk(Some(page))).storage.lastTicketId == Some(105)
  {
  }

  // ---- Properties of the alarm and the other handlers ----

  /** After `createOrUpdateAlarm` exactly one alarm is registered, under
      `checkTicketsAlarm`, with a one-minute delay and the stored interval
      (or 0.5 minutes when it is unset or 0) as its period, even when the
      alarm registered before ran at an interval since overwritten. */
  lemma RegisterAlarmLeavesOne(s: Snapshot)
    requires Bounded(s)
    ensures var t := RegisterAlarm(s);
      && t.alarms.Keys == {AlarmName}
      && |t.alarms| == 1
      && t.alarms[AlarmName] == Alarm(1.0, AlarmPeriod(s.storage.checkInterval))
      && t.storage == s.storage
      && Inv(t)
  {
    assert RegisterAlarm(s).alarms.Keys == {AlarmName};
  }

  /** Registering again replaces the alarm rather than adding one. */
  lemma RegisterAlarmIdempotent(s: Snapshot)
    ensures RegisterAlarm(RegisterAlarm(s)) == RegisterAlarm(s)
    ensures |RegisterAlarm(s).alarms| == |s.alarms| + (if AlarmName in s.alarms then 0 else 1)
  {
  }

  /** Only the alarm named `checkTicketsAlarm` starts a tick. */
  lemma OtherAlarmsIgnored(s: Snapshot, name: string, response: GlpiResponse)
    requires name != AlarmName
    ensures AlarmRang(s, name, response) == s
  {
  }

  /** The tick's own write of `lastTicketId` does not re-arm the alarm;
      any change that includes `checkInterval` does. */
  lemma StorageChangeRearmsOnlyOnInterval(s: Snapshot, changedKeys: set<string>)
    ensures "checkInterval" !in changedKeys ==> StorageChanged(s, changedKeys) == s
    ensures "checkInterval" in changedKeys ==>
      StorageChanged(s, changedKeys) ==
        s.(alarms := s.alarms[AlarmName := Alarm(1.0, AlarmPeriod(s.storage.checkInterval))])
  {
  }

  /** Clicking the icon clears the badge text and keeps the watermark. */
  lemma ClickKeepsWatermark(s: Snapshot)
    ensures IconClicked(s).badgeText == ""
    ensures IconClicked(s).storage == s.storage
  {
  }

  /** With an interval saved by the options page, the alarm period is
      that interval and never below half a minute. */
  lemma SavedIntervalPeriod(parsed: Option<real>)
    ensures AlarmPeriod(Some(SavedInterval(parsed))) == SavedInterval(parsed) >= 0.5
  {
  }

  /** Saving the options stores the four keys and leaves `lastTicketId`
      alone. The tick is configured afterwards exactly when URL and both
      tokens are non-empty. A new interval re-arms the alarm. An unchanged
      interval leaves the alarm as it was. Either way, the alarm that is
      registered runs at the saved interval. */
  lemma SaveOptionsMovesAlarm(s: Snapshot, url: string, appToken: string, userToken: string,
                              parsed: Option<real>)
    requires Inv(s)
    ensures var t := SavedOptions(s, url, appToken, userToken, parsed);
      && Inv(t)
      && t.storage == s.storage.(glpiUrl := Some(url), appToken := Some(appToken),
                                 userToken := Some(userToken),
                                 checkInterval := Some(SavedInterval(parsed)))
      && (Configured(t.storage) <==> url != "" && appToken != "" && userToken != "")
      && (s.storage.checkInterval != Some(SavedInterval(parsed)) ==>
            t.alarms == s.alarms[AlarmName := Alarm(1.0, SavedInterval(parsed))])
      && (s.storage.checkInterval == Some(SavedInterval(parsed)) ==> t.alarms == s.alarms)
      && (AlarmName in t.alarms ==> t.alarms[AlarmName] == Alarm(1.0, SavedInterval(parsed)))
      && t.badgeText == s.badgeText && t.badgeColor == s.badgeColor
      && t.offscreenDocuments == s.offscreenDocuments && t.playMessages == s.playMessages
  {
  }

  /** `n` calls of `playNotificationSound` in a row. */
  function PlaySoundTimes(s: Snapshot, n: nat): Snapshot
    decreases n
  {
    if n == 0 then s else PlaySoundTimes(PlaySound(s), n - 1)
  }

  /** However many sounds are requested, at most one offscreen document
      exists, one is created on first use, and each call sends one `play`. */
  lemma {:induction false} PlaySoundTimesAtMostOneDocument(s: Snapshot, n: nat)
    requires s.offscreenDocuments <= 1
    ensures PlaySoundTimes(s, n).offscreenDocuments <= 1
    ensures n > 0 ==> PlaySoundTimes(s, n).offscreenDocuments == 1
    ensures PlaySoundTimes(s, n).playMessages == s.playMessages + n
    ensures PlaySoundTimes(s, n).storage == s.storage
    decreases n
  {
    if n > 0 {
      PlaySoundTimesAtMostOneDocument(PlaySound(s), n - 1);
    }
  }

  /** Over any sequence of events the invariant holds and the watermark
      never decreases. */
  lemma {:induction false} RunKeepsInvariantAndWatermark(s: Snapshot, events: seq<Event>)
    requires Inv(s)
    ensures Inv(Run(s, events))
    ensures Watermark(Run(s, events).storage.lastTicketId) >= Watermark(s.storage.lastTicketId)
    decreases |events|
  {
    if events != [] {
      var t := Step(s, events[0]);
      match events[0] {
        case AlarmEvent(name, response) =>
          if name == AlarmName {
            TickEffects(s, response);
            TickNeverLowersWatermark(s, response);
          }
        case _ =>
      }
      assert Inv(t);
      RunKeepsInvariantAndWatermark(t, events[1..]);
    }
  }

  // ---- The service worker, updating its state in place ----

  class Extension {
    var storage: Storage
    var badgeText: string
    var badgeColor: Option<string>
    var offscreenDocuments: nat
    var playMessages: nat
    var alarms: map<string, Alarm>

    function State(): Snapshot
      reads this
    {
      Snapshot(storage, badgeText, badgeColor, offscreenDocuments, playMessages, alarms)
    }

    predicate Valid()
      reads this
    {
      Inv(State())
    }

    /** A freshly loaded worker over the given stored keys: empty badge,
        no offscreen document, no alarm. */
    constructor (stored: Storage)
      ensures Valid()
      ensures State() == Snapshot(stored, "", None, 0, 0, map[])
    {
      storage := stored;
      badgeText := "";
      badgeColor := None;
      offscreenDocuments := 0;
      playMessages := 0;
      alarms := map[];
    }

    /** background.js:8-23. */
    method PlayNotificationSound()
      requires Valid()
      modifies this
      ensures Valid()
      ensures State() == PlaySound(old(State()))
      ensures offscreenDocuments == 1
    {
      var hasDoc := offscreenDocuments > 0;
      if !hasDoc {
        offscreenDocuments := offscreenDocuments + 1;
      }
      playMessages := playMessages + 1;
    }

    /** background.js:25-90: one atomic tick against the server's answer
        `response`, returning the branch it took. */
    method CheckNewTickets(response: GlpiResponse) returns (report: TickReport)
      requires Valid()
      modifies this
      ensures Valid()
      ensures report == Classify(old(storage), response)
      ensures State() == Tick(old(State()), response)
    {
      if !Configured(storage) {
        return ConfigMissing;
      }
      var lastTicketId := Watermark(storage.lastTicketId);
      match response {
        case SearchOk(data) =>
          var tickets := Page(data);
          if |tickets| == 0 {
            return NoTickets;
          }
          var latest := LatestTicket(tickets);
          if latest.id > lastTicketId {
            PlayNotificationSound();
            storage := storage.(lastTicketId := Some(latest.id));
            badgeText := AlertText;
            badgeColor := Some(AlertColor);
            report := NewTicket(latest.id);
          } else {
            report := NothingNew(latest.id);
          }
        case _ =>
          return RequestFailed;
      }
    }

    /** background.js:95-105. Also restores `Valid()` right after a write
        of a new interval. */
    method CreateOrUpdateAlarm()
      requires Bounded(State())
      modifies this
      ensures Valid()
      ensures State() == RegisterAlarm(old(State()))
      ensures alarms.Keys == {AlarmName}
    {
      var interval := AlarmPeriod(storage.checkInterval);
      alarms := alarms[AlarmName := Alarm(1.0, interval)];
    }

    /** background.js:107-111. */
    method OnAlarm(name: string, response: GlpiResponse)
      requires Valid()
      modifies this
      ensures Valid()
      ensures State() == AlarmRang(old(State()), name, response)
    {
      if name == AlarmName {
        var _ := CheckNewTickets(response);
      }
    }

    /** background.js:113-118, run right after a storage write. */
    method OnStorageChanged(changedKeys: set<string>)
      requires Bounded(State())
      modifies this
      ensures Bounded(State())
      ensures "checkInterval" in changedKeys || old(Valid()) ==> Valid()
      ensures State() == StorageChanged(old(State()), changedKeys)
    {
      if "checkInterval" in changedKeys {
        CreateOrUpdateAlarm();
      }
    }

    /** options.js:2-13 followed by background.js:113-118: stores the
        form's values, then runs the change listener on the keys whose
        value changed. */
    method SaveOptions(url: string, appToken: string, userToken: string, parsed: Option<real>)
      requires Valid()
      modifies this
      ensures Valid()
      ensures State() == SavedOptions(old(State()), url, appToken, userToken, parsed)
    {
      var before := storage;
      storage := storage.(glpiUrl := Some(url), appToken := Some(appToken),
                          userToken := Some(userToken), checkInterval := Some(SavedInterval(parsed)));
      OnStorageChanged(ChangedKeys(before, storage));
    }

    /** background.js:120-123. */
    method OnInstalled()
      requires Valid()
      modifies this
      ensures Valid()
      ensures State() == RegisterAlarm(old(State()))
    {
      CreateOrUpdateAlarm();
    }

    /** background.js:125-128. */
    method OnStartup()
      requires Valid()
      modifies this
      ensures Valid()
      ensures State() == RegisterAlarm(old(State()))
    {
      CreateOrUpdateAlarm();
    }

    /** background.js:130-132. */
    method OnActionClicked()
      requires Valid()
      modifies this
      ensures Valid()
      ensures State() == IconClicked(old(State()))
    {
      badgeText := "";
    }

    /** Handles one event as the listeners do. */
    method Handle(e: Event)
      requires Valid()
      modifies this
      ensures Valid()
      ensures State() == Step(old(State()), e)
    {
      match e {
        case AlarmEvent(name, response) => OnAlarm(name, response);
        case OptionsSaved(url, app, user, parsed) => SaveOptions(url, app, user, parsed);
        case Installed => OnInstalled();
        case Startup => OnStartup();
        case ActionClicked => OnActionClicked();
      }
    }
  }
}
