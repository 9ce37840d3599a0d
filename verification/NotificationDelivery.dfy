/**
 The two ends together: a reminder that the server sends later is never swallowed by the read
 progress or the pending entry that earlier reminders of its session left in the worker.
 */
module NotificationDelivery {
  import opened Prelude
  import W = Watermark
  import N = NotificationStamps

  /** A record that cannot stand in the way of a reminder `id` stamped `time`. */
  predicate Earlier(r: W.Record, session: string, id: string, time: int) {
    r.sessionId == session ==> r.id != id && (r.createdAt.At? ==> r.createdAt.time < time)
  }

  predicate EarlierInput(input: W.Input, session: string, id: string, time: int) {
    match input
    case Reminder(payload, _, _) => Earlier(payload.record, session, id, time)
    case ReadReport(_, records) => forall r <- records :: Earlier(r, session, id, time)
    case PreferencesChange(_, _) => true
  }

  /** The worker knows nothing of the session that is as late as the reminder. */
  ghost predicate Clear(s: W.State, session: string, id: string, time: int) {
    var clear :=
      && (session in s.readProgress ==> Earlier(s.readProgress[session].(sessionId := session), session, id, time))
      && (session in s.pending ==> Earlier(s.pending[session].(sessionId := session), session, id, time))
      && (forall scope :: W.Key(scope, session, id) !in s.seen);
    clear
  }

  lemma TrimKeepsOut(seen: seq<W.Key>, key: W.Key)
    requires key !in seen
    ensures key !in W.Trim(seen)
  {
  }

  lemma ReadOneClear(s: W.State, scope: W.Scope, r: W.Record, session: string, id: string, time: int)
    requires Clear(s, session, id, time) && Earlier(r, session, id, time)
    ensures Clear(W.ReadOne(s, scope, r), session, id, time)
  {
  }

  lemma {:induction false} ReadAllClear(s: W.State, scope: W.Scope, records: seq<W.Record>, session: string, id: string,
                                        time: int)
    requires Clear(s, session, id, time) && forall r <- records :: Earlier(r, session, id, time)
    ensures Clear(W.ReadAll(s, scope, records), session, id, time)
    decreases |records|
  {
    if records == [] {
    } else {
      ReadOneClear(s, scope, records[0], session, id, time);
      ReadAllClear(W.ReadOne(s, scope, records[0]), scope, records[1..], session, id, time);
    }
  }

  lemma ShowClear(s: W.State, p: W.Payload, visible: bool, now: int, session: string, id: string, time: int)
    requires Clear(s, session, id, time) && Earlier(p.record, session, id, time)
    ensures Clear(W.Show(s, p, visible, now), session, id, time)
  {
    var t := W.Show(s, p, visible, now);
    var own := W.KeyOf(p.scope, p.record);
    forall scope ensures W.Key(scope, session, id) !in t.seen {
      TrimKeepsOut(s.seen, W.Key(scope, session, id));
      TrimKeepsOut(s.seen + [own], W.Key(scope, session, id));
    }
  }

  lemma StepClear(s: W.State, input: W.Input, session: string, id: string, time: int)
    requires Clear(s, session, id, time) && EarlierInput(input, session, id, time)
    ensures Clear(W.Step(s, input), session, id, time)
  {
    match input {
      case Reminder(payload, visible, now) => ShowClear(s, payload, visible, now, session, id, time);
      case ReadReport(scope, records) =>
        ReadAllClear(s, scope, records, session, id, time);
        var m := if scope != s.scope then s else W.ReadAll(s, scope, records);
        forall other ensures W.Key(other, session, id) !in W.Trim(m.seen) { TrimKeepsOut(m.seen, W.Key(other, session, id)); }
      case PreferencesChange(scope, preferences) =>
        forall other ensures W.Key(other, session, id) !in W.Trim(s.seen) { TrimKeepsOut(s.seen, W.Key(other, session, id)); }
    }
  }

  lemma {:induction false} RunClear(s: W.State, inputs: seq<W.Input>, session: string, id: string, time: int)
    requires Clear(s, session, id, time) && forall input <- inputs :: EarlierInput(input, session, id, time)
    ensures Clear(W.Run(s, inputs), session, id, time)
    decreases |inputs|
  {
    if inputs == [] {
    } else {
      StepClear(s, inputs[0], session, id, time);
      RunClear(W.Step(s, inputs[0]), inputs[1..], session, id, time);
    }
  }

  /** The record a client keeps of a reminder; old pages leave the date out. */
  predicate RecordOf(r: W.Record, reminder: N.Reminder) {
    r.sessionId == reminder.key.session && r.id == reminder.id
    && (r.createdAt.Missing? || r.createdAt == W.At(reminder.createdAt))
  }

  /** What the worker hears of a session comes from the reminders sent so far. */
  predicate FromReminders(r: W.Record, session: string, sent: seq<N.Reminder>) {
    r.sessionId == session ==> exists i | 0 <= i < |sent| :: RecordOf(r, sent[i])
  }

  predicate InputFromReminders(input: W.Input, session: string, sent: seq<N.Reminder>) {
    match input
    case Reminder(payload, _, _) => FromReminders(payload.record, session, sent)
    case ReadReport(_, records) => forall r <- records :: FromReminders(r, session, sent)
    case PreferencesChange(_, _) => true
  }

  lemma SentBefore(r: W.Record, key: N.SessionKey, reminders: seq<N.Reminder>, j: nat, after: int)
    requires N.Increasing(after, reminders) && j < |reminders|
    requires forall i | 0 <= i < j :: reminders[i].id != reminders[j].id
    requires FromReminders(r, key.session, reminders[..j])
    ensures Earlier(r, key.session, reminders[j].id, reminders[j].createdAt)
  {
    if r.sessionId == key.session {
      var i :| 0 <= i < j && RecordOf(r, reminders[..j][i]);
      assert reminders[..j][i] == reminders[i];
    }
  }

  /**
   Let the server send reminders for a retained session, and let the worker process, in any
   order and however often, shows and reads of the first `j` of them and anything at all about
   other sessions.  The next reminder, if its id is new, is then accepted: it becomes pending,
   or, when the conversation is on screen, the new read progress.
   */
  lemma LaterReminderIsNotSuppressed(
      s: N.State, events: seq<N.Event>, key: N.SessionKey, j: nat, inputs: seq<W.Input>, p: W.Payload, visible: bool, now: int)
    requires N.Inv(s) && N.RetainedThrough(s, events, key) && j < |N.Reminders(s, events, key)|
    requires var sent := N.Reminders(s, events, key);
             && (forall i | 0 <= i < j :: sent[i].id != sent[j].id)
             && (forall input <- inputs :: InputFromReminders(input, key.session, sent[..j]))
             && p.record == W.Record(key.session, sent[j].id, W.At(sent[j].createdAt))
    requires W.Tracked(p.record) && !W.Foreign(W.Run(W.INIT, inputs), p.scope)
    ensures var w := W.Run(W.INIT, inputs);
            var after := W.Step(w, W.Reminder(p, visible, now));
            && W.Accepts(w, p)
            && (if visible then W.Get(after.readProgress, key.session) == Some(p.record)
                else W.Get(after.pending, key.session) == Some(p.record))
  {
    var sent := N.Reminders(s, events, key);
    var time := sent[j].createdAt;
    N.StampsIncrease(s, events, key);
    forall input | input in inputs ensures EarlierInput(input, key.session, sent[j].id, time) {
      AllBefore(input, key, sent, j, N.StampOf(s, key));
    }
    RunClear(W.INIT, inputs, key.session, sent[j].id, time);
  }

  lemma AllBefore(input: W.Input, key: N.SessionKey, sent: seq<N.Reminder>, j: nat, after: int)
    requires N.Increasing(after, sent) && j < |sent| && (forall i | 0 <= i < j :: sent[i].id != sent[j].id)
    requires InputFromReminders(input, key.session, sent[..j])
    ensures EarlierInput(input, key.session, sent[j].id, sent[j].createdAt)
  {
    match input {
      case Reminder(payload, _, _) => SentBefore(payload.record, key, sent, j, after);
      case ReadReport(_, records) =>
        forall r | r in records ensures Earlier(r, key.session, sent[j].id, sent[j].createdAt) {
          SentBefore(r, key, sent, j, after);
        }
      case PreferencesChange(_, _) =>
    }
  }
}
