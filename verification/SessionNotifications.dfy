/** The server's notification registry with its two maps, kept in insertion order. */
module SessionNotifications {
  import opened Prelude
  import N = NotificationStamps

  class SessionNotificationRegistry {
    var sessions: seq<N.Summary>
    var seen: seq<N.Reminded>

    function View(): N.State
      reads this
    {
      N.State(sessions, seen)
    }

    constructor ()
      ensures View() == N.INIT
    {
      sessions, seen := [], [];
    }

    method Remove(key: N.SessionKey)
      modifies this`sessions
      ensures View() == N.Step(old(View()), N.Removed(key))
    {
      sessions := N.Without(sessions, key);
    }

    /** `receive` */
    method Receive(f: N.Frame, now: int) returns (reminder: Option<N.Reminder>)
      modifies this
      ensures View() == N.Step(old(View()), N.Frames(f, now))
      ensures reminder == N.Emits(old(View()), N.Frames(f, now))
    {
      if f.ignored { return None; }
      var previous := N.Find(sessions, f.key);
      if N.Stale(previous, f) { return None; }
      var runId := if previous.Some? then previous.value.runId else None;
      if f.runId.Some? && f.runId.value != "" { runId := f.runId; }
      var attentionAt := if previous.Some? then previous.value.attentionAt else None;
      reminder := None;
      if f.attention.Some? && N.Reminded(f.key, f.attention.value) !in seen {
        seen := seen + [N.Reminded(f.key, f.attention.value)];
        if |seen| > N.SEEN_LIMIT { seen := seen[1..]; }
        var time := f.timestamp.GetOr(now);
        var last := N.LastStamp(previous);
        attentionAt := Some(if time < last + 1 then last + 1 else time);
        reminder := Some(N.Reminder(f.key, f.attention.value, attentionAt.value));
      }
      sessions := N.Without(sessions, f.key) + [N.Summary(f.key, runId, attentionAt)];
      if |sessions| > N.SESSION_LIMIT { sessions := sessions[1..]; }
    }
  }
}
