/**
 Read progress of notifications in the service worker (`ui/public/sw.js`): what was shown,
 what is pending and how far each session has been read.  Every update runs in one database
 transaction, one after the other.  Missing identifiers are modelled as empty strings.
 */
module Watermark {
  import opened Prelude

  const SEEN_LIMIT := 2048

  /** `createdAt`: absent, not a date, or a date in milliseconds. */
  datatype Stamp = Missing | Unparsable | At(time: int)

  datatype Record = Record(sessionId: string, id: string, createdAt: Stamp)

  /** A scope as JavaScript compares it. */
  datatype Scope = Null | Undefined | Name(name: string)

  datatype Key = Key(scope: Scope, sessionId: string, id: string)

  datatype Preferences = Preferences(enabled: bool, sound: bool)

  datatype State = State(
    seen: seq<Key>, pending: map<string, Record>, readProgress: map<string, Record>, scope: Scope,
    preferences: Option<Preferences>, lastSound: int)

  const INIT := State([], map[], map[], Null, None, 0)

  predicate Truthy(s: Scope) { s.Name? && s.name != "" }

  function Get(m: map<string, Record>, key: string): Option<Record> {
    if key in m then Some(m[key]) else None
  }

  predicate AtOrBefore(record: Option<Record>, progress: Option<Record>) {
    && record.Some? && progress.Some?
    && (record.value.id == progress.value.id
        || (progress.value.createdAt.At?
            && (!record.value.createdAt.At? || record.value.createdAt.time <= progress.value.createdAt.time)))
  }

  /** `state.seen.slice(-2048)` */
  function Trim(seen: seq<Key>): (kept: seq<Key>)
    ensures |kept| <= SEEN_LIMIT
  {
    if |seen| > SEEN_LIMIT then seen[|seen| - SEEN_LIMIT..] else seen
  }

  // ---------------------------------------------------------------- showing a reminder

  datatype Payload = Payload(scope: Scope, record: Record, silent: bool, preferences: Option<Preferences>)

  /** The key is a JSON text, in which an undefined scope reads like null. */
  function KeyOf(scope: Scope, r: Record): Key { Key(if scope.Undefined? then Null else scope, r.sessionId, r.id) }

  predicate Tracked(r: Record) { r.sessionId != "" && r.id != "" }

  predicate Foreign(s: State, scope: Scope) { Truthy(s.scope) && Truthy(scope) && s.scope != scope }

  /** The reminder is new, and not at or before what was read or is already pending. */
  predicate Accepts(s: State, p: Payload) {
    var accepted :=
      && !Foreign(s, p.scope)
      && KeyOf(p.scope, p.record) !in s.seen
      && (Tracked(p.record) ==>
            && !AtOrBefore(Some(p.record), Get(s.readProgress, p.record.sessionId))
            && !AtOrBefore(Some(p.record), Get(s.pending, p.record.sessionId)));
    accepted
  }

  function MarkSeen(s: State, key: Key): State { s.(seen := Trim(s.seen + [key])) }

  function DropPending(s: State, session: string): State {
    if AtOrBefore(Get(s.pending, session), Get(s.readProgress, session)) then s.(pending := s.pending - {session}) else s
  }

  function Place(s: State, r: Record, visible: bool): State {
    if !Tracked(r) then s
    else if visible then DropPending(s.(readProgress := s.readProgress[r.sessionId := r]), r.sessionId)
    else s.(pending := s.pending[r.sessionId := r])
  }

  /** Whether a notification appears, and whether it is silent. */
  function Appearance(s: State, p: Payload, visible: bool, now: int): (bool, bool) {
    var preferences := if s.preferences.Some? then s.preferences else p.preferences;
    (!visible && (preferences.None? || preferences.value.enabled),
     p.silent || (preferences.Some? && !preferences.value.sound) || now - s.lastSound < 2000)
  }

  function Sounded(s: State, look: (bool, bool), now: int): State {
    if look.0 && !look.1 then s.(lastSound := now) else s
  }

  function Show(s: State, p: Payload, visible: bool, now: int): State {
    if Foreign(s, p.scope) || KeyOf(p.scope, p.record) in s.seen then s.(seen := Trim(s.seen))
    else if !Accepts(s, p) then MarkSeen(s, KeyOf(p.scope, p.record))
    else Sounded(Place(MarkSeen(s, KeyOf(p.scope, p.record)), p.record, visible), Appearance(s, p, visible, now), now)
  }

  // ---------------------------------------------------------------- reading

  /** Old pages send only the id; the time is recovered from the pending reminder. */
  function ProgressOf(s: State, r: Record): Record {
    var pending := Get(s.pending, r.sessionId);
    r.(createdAt := if r.createdAt.Missing? && pending.Some? && pending.value.id == r.id then pending.value.createdAt
                    else r.createdAt)
  }

  predicate Enriches(previous: Option<Record>, progress: Record) {
    && previous.Some? && previous.value.id == progress.id && progress.createdAt.At?
    && (!previous.value.createdAt.At? || progress.createdAt.time > previous.value.createdAt.time)
  }

  function Advance(s: State, r: Record): State {
    var progress := ProgressOf(s, r);
    var previous := Get(s.readProgress, r.sessionId);
    if Enriches(previous, progress) || !AtOrBefore(Some(progress), previous)
    then s.(readProgress := s.readProgress[r.sessionId := progress])
    else s
  }

  function ReadOne(s: State, scope: Scope, r: Record): State {
    if !Tracked(r) then s
    else
      var key := KeyOf(scope, r);
      DropPending(Advance(s.(seen := if key in s.seen then s.seen else s.seen + [key]), r), r.sessionId)
  }

  function ReadAll(s: State, scope: Scope, records: seq<Record>): State
    decreases |records|
  {
    if records == [] then s else ReadAll(ReadOne(s, scope, records[0]), scope, records[1..])
  }

  function Read(s: State, scope: Scope, records: seq<Record>): State {
    var t := if scope != s.scope then s else ReadAll(s, scope, records);
    t.(seen := Trim(t.seen))
  }

  function SetPreferences(s: State, scope: Scope, preferences: Option<Preferences>): State {
    var t := if Foreign(s, scope) then s.(pending := map[], seen := [], readProgress := map[]) else s;
    t.(scope := if Truthy(scope) then scope else s.scope, preferences := preferences, seen := Trim(t.seen))
  }

  datatype Input =
    | Reminder(payload: Payload, visible: bool, now: int)
    | ReadReport(scope: Scope, records: seq<Record>)
    | PreferencesChange(scope: Scope, preferences: Option<Preferences>)

  function Step(s: State, input: Input): State {
    match input
    case Reminder(payload, visible, now) => Show(s, payload, visible, now)
    case ReadReport(scope, records) => Read(s, scope, records)
    case PreferencesChange(scope, preferences) => SetPreferences(s, scope, preferences)
  }

  function Run(s: State, inputs: seq<Input>): State
    decreases |inputs|
  {
    if inputs == [] then s else Run(Step(s, inputs[0]), inputs[1..])
  }

  // ---------------------------------------------------------------- what is kept

  /** The pending reminder of a session is not at or before its read progress. */
  predicate Unread(s: State, session: string) {
    !AtOrBefore(Get(s.pending, session), Get(s.readProgress, session))
  }

  predicate Filed(m: map<string, Record>) {
    forall k <- m :: m[k].sessionId == k
  }

  /** Pending reminders are unread, and records are filed under their sessions. */
  ghost predicate Tidy(s: State) {
    var tidy := (forall session: string :: Unread(s, session)) && Filed(s.pending) && Filed(s.readProgress);
    tidy
  }

  ghost predicate Inv(s: State) {
    var sound := Tidy(s) && |s.seen| <= SEEN_LIMIT;
    sound
  }

  /** Nothing read becomes unread, nothing dated undated, and time never runs backwards. */
  predicate NotBehind(was: Option<Record>, progress: Option<Record>) {
    was.Some? ==>
      && progress.Some?
      && (was.value.createdAt.At? ==>
            progress.value.createdAt.At? && was.value.createdAt.time <= progress.value.createdAt.time)
  }

  ghost predicate Monotone(s: State, t: State) {
    forall session: string :: NotBehind(Get(s.readProgress, session), Get(t.readProgress, session))
  }

  lemma PlaceKeeps(s: State, r: Record, visible: bool)
    requires Tidy(s)
    requires Tracked(r) ==> !AtOrBefore(Some(r), Get(s.readProgress, r.sessionId))
    ensures Tidy(Place(s, r, visible)) && Monotone(s, Place(s, r, visible))
  {
    var t := Place(s, r, visible);
    forall session: string ensures Unread(t, session) { assert Unread(s, session); }
    forall session: string ensures NotBehind(Get(s.readProgress, session), Get(t.readProgress, session)) {}
  }

  lemma ShowKeeps(s: State, p: Payload, visible: bool, now: int)
    requires Inv(s)
    ensures Inv(Show(s, p, visible, now)) && Monotone(s, Show(s, p, visible, now))
  {
    var t := Show(s, p, visible, now);
    if Accepts(s, p) {
      var m := MarkSeen(s, KeyOf(p.scope, p.record));
      forall session: string ensures Unread(m, session) { assert Unread(s, session); }
      PlaceKeeps(m, p.record, visible);
      var u := Place(m, p.record, visible);
      forall session: string ensures Unread(t, session) { assert Unread(u, session); }
      forall session: string ensures NotBehind(Get(s.readProgress, session), Get(t.readProgress, session)) {
        assert NotBehind(Get(m.readProgress, session), Get(u.readProgress, session));
      }
    } else {
      forall session: string ensures Unread(t, session) { assert Unread(s, session); }
    }
  }

  lemma ReadOneKeeps(s: State, scope: Scope, r: Record)
    requires Tidy(s)
    ensures Tidy(ReadOne(s, scope, r)) && Monotone(s, ReadOne(s, scope, r))
  {
    var t := ReadOne(s, scope, r);
    forall session: string ensures Unread(t, session) { assert Unread(s, session); }
    forall session: string ensures NotBehind(Get(s.readProgress, session), Get(t.readProgress, session)) {}
  }

  lemma {:induction false} ReadAllKeeps(s: State, scope: Scope, records: seq<Record>)
    requires Tidy(s)
    ensures Tidy(ReadAll(s, scope, records)) && Monotone(s, ReadAll(s, scope, records))
    decreases |records|
  {
    if records == [] {
    } else {
      var m := ReadOne(s, scope, records[0]);
      ReadOneKeeps(s, scope, records[0]);
      ReadAllKeeps(m, scope, records[1..]);
      Chain(s, m, ReadAll(s, scope, records));
    }
  }

  lemma Chain(a: State, b: State, c: State)
    requires Monotone(a, b) && Monotone(b, c)
    ensures Monotone(a, c)
  {
    forall session: string ensures NotBehind(Get(a.readProgress, session), Get(c.readProgress, session)) {
      assert NotBehind(Get(a.readProgress, session), Get(b.readProgress, session));
      assert NotBehind(Get(b.readProgress, session), Get(c.readProgress, session));
    }
  }

  lemma ReadKeeps(s: State, scope: Scope, records: seq<Record>)
    requires Inv(s)
    ensures Inv(Read(s, scope, records)) && Monotone(s, Read(s, scope, records))
  {
    ReadAllKeeps(s, scope, records);
    var m := if scope != s.scope then s else ReadAll(s, scope, records);
    var t := Read(s, scope, records);
    forall session: string ensures Unread(t, session) { assert Unread(m, session); }
    forall session: string ensures NotBehind(Get(s.readProgress, session), Get(t.readProgress, session)) {
      assert NotBehind(Get(s.readProgress, session), Get(m.readProgress, session));
    }
  }

  /**
   Every update keeps pending reminders unread and moves read progress forward only; the one
   exception is a change to another user's scope, which forgets everything.
   */
  lemma StepKeeps(s: State, input: Input)
    requires Inv(s)
    ensures Inv(Step(s, input))
    ensures !(input.PreferencesChange? && Foreign(s, input.scope)) ==> Monotone(s, Step(s, input))
  {
    match input {
      case Reminder(payload, visible, now) => ShowKeeps(s, payload, visible, now);
      case ReadReport(scope, records) => ReadKeeps(s, scope, records);
      case PreferencesChange(scope, preferences) =>
        var t := SetPreferences(s, scope, preferences);
        forall session: string ensures Unread(t, session) { assert Unread(s, session); }
    }
  }

  lemma {:induction false} RunKeeps(s: State, inputs: seq<Input>)
    requires Inv(s)
    ensures Inv(Run(s, inputs))
    decreases |inputs|
  {
    if inputs == [] {
    } else {
      StepKeeps(s, inputs[0]);
      RunKeeps(Step(s, inputs[0]), inputs[1..]);
    }
  }

  /** In every run: what is pending is unread, for every session. */
  lemma PendingIsUnread(inputs: seq<Input>, session: string)
    ensures Unread(Run(INIT, inputs), session)
  {
    RunKeeps(INIT, inputs);
  }

  /** The progress is dated, and not before `time`. */
  predicate ReadUpTo(progress: Option<Record>, time: int) {
    progress.Some? && progress.value.createdAt.At? && progress.value.createdAt.time >= time
  }

  /** A dated report replaces read progress that is absent, undated or earlier, and no other. */
  lemma DatedReport(s: State, scope: Scope, r: Record)
    requires Tracked(r) && r.createdAt.At?
    ensures var previous := Get(s.readProgress, r.sessionId);
            var progress := Get(ReadOne(s, scope, r).readProgress, r.sessionId);
            progress == if ReadUpTo(previous, r.createdAt.time) then previous else Some(r)
  {
  }

  lemma TwoReports(s: State, scope: Scope, a: Record, b: Record)
    ensures ReadAll(s, scope, [a, b]) == ReadOne(ReadOne(s, scope, a), scope, b)
  {
    assert [a, b][1..] == [b] && [b][1..] == [];
    assert ReadAll(ReadOne(s, scope, a), scope, [b]) == ReadOne(ReadOne(s, scope, a), scope, b);
  }

  /** Two dated reports leave the later one, in either order, unless the session was already read that far. */
  lemma LatestReportWins(s: State, scope: Scope, a: Record, b: Record)
    requires a.sessionId == b.sessionId && Tracked(a) && Tracked(b) && a.createdAt.At? && b.createdAt.At?
    requires a.createdAt.time < b.createdAt.time
    ensures var previous := Get(s.readProgress, a.sessionId);
            var progress := if ReadUpTo(previous, b.createdAt.time) then previous else Some(b);
            && Get(ReadAll(s, scope, [a, b]).readProgress, a.sessionId) == progress
            && Get(ReadAll(s, scope, [b, a]).readProgress, a.sessionId) == progress
  {
    InEitherOrder(s, scope, a, b);
    InEitherOrder(s, scope, b, a);
  }

  lemma InEitherOrder(s: State, scope: Scope, a: Record, b: Record)
    requires a.sessionId == b.sessionId && Tracked(a) && Tracked(b) && a.createdAt.At? && b.createdAt.At?
    ensures var previous := Get(s.readProgress, a.sessionId);
            var first := if ReadUpTo(previous, a.createdAt.time) then previous else Some(a);
            var progress := Get(ReadAll(s, scope, [a, b]).readProgress, a.sessionId);
            progress == if ReadUpTo(first, b.createdAt.time) then first else Some(b)
  {
    TwoReports(s, scope, a, b);
    DatedReport(s, scope, a);
    DatedReport(ReadOne(s, scope, a), scope, b);
  }

  /** The order of two dated reports matters exactly if they differ, have the same time, and the session was not read that far. */
  lemma OrderOfReports(s: State, scope: Scope, a: Record, b: Record)
    requires a.sessionId == b.sessionId && Tracked(a) && Tracked(b) && a.createdAt.At? && b.createdAt.At?
    ensures Get(ReadAll(s, scope, [a, b]).readProgress, a.sessionId) == Get(ReadAll(s, scope, [b, a]).readProgress, a.sessionId)
       <==> a.createdAt.time != b.createdAt.time || a.id == b.id
            || ReadUpTo(Get(s.readProgress, a.sessionId), a.createdAt.time)
  {
    InEitherOrder(s, scope, a, b);
    InEitherOrder(s, scope, b, a);
  }

  // ---------------------------------------------------------------- what a reminder does

  /** A reminder that is accepted becomes pending, or, when its conversation is on screen, the read progress. */
  lemma AcceptedIsPlaced(s: State, p: Payload, visible: bool, now: int)
    requires Accepts(s, p) && Tracked(p.record)
    ensures var t := Step(s, Reminder(p, visible, now));
            && (visible ==> Get(t.readProgress, p.record.sessionId) == Some(p.record) && t.pending.Keys <= s.pending.Keys)
            && (!visible ==> t.pending == s.pending[p.record.sessionId := p.record] && t.readProgress == s.readProgress)
  {
  }

  /**
   A reminder is refused, and changes neither what is pending nor what is read, if it is for
   another user, was seen before, or is no later than what its session has read or has pending.
   */
  lemma OldReminderIsRefused(s: State, p: Payload, visible: bool, now: int, known: Record)
    requires || (Truthy(s.scope) && Truthy(p.scope) && s.scope != p.scope)
             || KeyOf(p.scope, p.record) in s.seen
             || (p.record.sessionId != "" && p.record.id != ""
                 && (Get(s.readProgress, p.record.sessionId) == Some(known) || Get(s.pending, p.record.sessionId) == Some(known))
                 && (known.id == p.record.id
                     || (known.createdAt.At?
                         && (p.record.createdAt.At? ==> p.record.createdAt.time <= known.createdAt.time))))
    ensures !Accepts(s, p)
    ensures var t := Step(s, Reminder(p, visible, now));
            t.pending == s.pending && t.readProgress == s.readProgress && t.lastSound == s.lastSound
  {
  }

  /** Every other one is accepted: `known` is what its session has read or has pending, if anything. */
  lemma NewReminderIsAccepted(s: State, p: Payload)
    requires !(Truthy(s.scope) && Truthy(p.scope) && s.scope != p.scope) && KeyOf(p.scope, p.record) !in s.seen
    requires forall known |
               (p.record.sessionId in s.readProgress && known == s.readProgress[p.record.sessionId])
               || (p.record.sessionId in s.pending && known == s.pending[p.record.sessionId]) ::
               && known.id != p.record.id
               && (known.createdAt.At? ==> p.record.createdAt.At? && p.record.createdAt.time > known.createdAt.time)
    ensures Accepts(s, p)
  {
  }

  /** The preferences that count are the stored ones, or, without any, those the reminder brings. */
  function Settings(s: State, p: Payload): Preferences {
    match s.preferences
    case Some(stored) => stored
    case None => (match p.preferences case Some(own) => own case None => Preferences(true, true))
  }

  /** A notification appears unless the conversation is on screen or notifications are off; it is loud unless asked to be silent. */
  lemma WhenItAppears(s: State, p: Payload, visible: bool, now: int)
    ensures visible || !Settings(s, p).enabled ==> !Appearance(s, p, visible, now).0
    ensures !visible && Settings(s, p).enabled ==> Appearance(s, p, visible, now).0
    ensures p.silent || !Settings(s, p).sound ==> Appearance(s, p, visible, now).1
    ensures !p.silent && Settings(s, p).sound ==> (Appearance(s, p, visible, now).1 <==> now < s.lastSound + 2000)
  {
  }

  /** The reminder makes a sound. */
  predicate Sounds(s: State, input: Input) {
    input.Reminder? && Accepts(s, input.payload)
    && Appearance(s, input.payload, input.visible, input.now).0 && !Appearance(s, input.payload, input.visible, input.now).1
  }

  function SoundTimes(s: State, inputs: seq<Input>): seq<int>
    decreases |inputs|
  {
    if inputs == [] then []
    else (if Sounds(s, inputs[0]) then [inputs[0].now] else []) + SoundTimes(Step(s, inputs[0]), inputs[1..])
  }

  lemma {:induction false} ReadAllKeepsSound(s: State, scope: Scope, records: seq<Record>)
    ensures ReadAll(s, scope, records).lastSound == s.lastSound
    decreases |records|
  {
    if records == [] {
    } else {
      ReadAllKeepsSound(ReadOne(s, scope, records[0]), scope, records[1..]);
    }
  }

  lemma LastSoundIsKept(s: State, input: Input)
    ensures Step(s, input).lastSound == if Sounds(s, input) then input.now else s.lastSound
  {
    match input {
      case Reminder(payload, visible, now) =>
      case ReadReport(scope, records) => ReadAllKeepsSound(s, scope, records);
      case PreferencesChange(scope, preferences) =>
    }
  }

  /** In every run, and whatever the clock does, a sound comes at least two seconds after the sound before it. */
  lemma {:induction false} SoundsAreApart(s: State, inputs: seq<Input>, i: nat)
    requires i < |SoundTimes(s, inputs)|
    ensures SoundTimes(s, inputs)[i] >= (if i == 0 then s.lastSound else SoundTimes(s, inputs)[i - 1]) + 2000
    decreases |inputs|
  {
    var t := Step(s, inputs[0]);
    var rest := SoundTimes(t, inputs[1..]);
    LastSoundIsKept(s, inputs[0]);
    if Sounds(s, inputs[0]) {
      assert SoundTimes(s, inputs) == [inputs[0].now] + rest;
      if i > 0 { SoundsAreApart(t, inputs[1..], i - 1); }
    } else {
      assert SoundTimes(s, inputs) == rest;
      SoundsAreApart(t, inputs[1..], i);
    }
  }

  // ---------------------------------------------------------------- what a report does

  /** A report is heard only under the scope in force; what it names will not be shown again. */
  lemma ReportIsHeard(s: State, scope: Scope, r: Record)
    requires Tracked(r)
    ensures scope != s.scope ==> Read(s, scope, [r]).pending == s.pending && Read(s, scope, [r]).readProgress == s.readProgress
    ensures scope == s.scope ==>
              var t := Read(s, scope, [r]);
              && t.pending == ReadOne(s, scope, r).pending && t.readProgress == ReadOne(s, scope, r).readProgress
    ensures var t := ReadOne(s, scope, r);
            && KeyOf(scope, r) in t.seen
            && (r.sessionId in t.pending ==> t.pending[r.sessionId] == s.pending[r.sessionId])
  {
    assert [r][1..] == [];
    assert ReadAll(s, scope, [r]) == ReadAll(ReadOne(s, scope, r), scope, []);
  }

  /** A report that names the pending reminder, with its date or without any, reads it. */
  lemma PendingIsRead(s: State, scope: Scope, r: Record)
    requires Tracked(r) && Unread(s, r.sessionId) && r.sessionId in s.pending && s.pending[r.sessionId].id == r.id
    requires r.createdAt.Missing? || r.createdAt == s.pending[r.sessionId].createdAt
    ensures r.sessionId !in ReadOne(s, scope, r).pending
  {
  }

  /** A report without a date takes the date of the pending reminder it names. */
  lemma DateIsRecovered(s: State, scope: Scope, r: Record, date: Stamp)
    requires Tracked(r) && r.createdAt.Missing? && r.sessionId in s.pending
    requires s.pending[r.sessionId].id == r.id && s.pending[r.sessionId].createdAt == date
    ensures ReadOne(s, scope, r) == ReadOne(s, scope, r.(createdAt := date))
  {
  }

  /** A report that has no date and finds none never replaces dated progress, but replaces undated progress of another reminder. */
  lemma UndatedReport(s: State, scope: Scope, r: Record)
    requires Tracked(r) && r.createdAt.Unparsable?
    ensures var previous := Get(s.readProgress, r.sessionId);
            var progress := Get(ReadOne(s, scope, r).readProgress, r.sessionId);
            progress == if previous.Some? && (previous.value.createdAt.At? || previous.value.id == r.id) then previous else Some(r)
  {
  }

  /** Another user's scope starts afresh; otherwise preferences change nothing but themselves, and name a scope that was unknown. */
  lemma PreferencesDecide(s: State, scope: Scope, preferences: Option<Preferences>)
    ensures var t := Step(s, PreferencesChange(scope, preferences));
            var named := scope.Name? && scope.name != "";
            var changes := named && s.scope.Name? && s.scope.name != "" && scope.name != s.scope.name;
            && t.preferences == preferences && t.scope == (if named then scope else s.scope)
            && (changes ==> t.pending == map[] && t.readProgress == map[] && t.seen == [])
            && (!changes ==> t.pending == s.pending && t.readProgress == s.readProgress)
  {
  }
}
