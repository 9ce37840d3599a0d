/** `createSessionActivityRegistry`: `receive` as the branch chain it is, updating the maps in place. */
module SessionActivity {
  import opened Prelude
  import A = Activity

  class SessionActivityRegistry {
    var users: map<string, seq<A.Entry>>
    var pendingRequests: map<A.Place, map<string, A.Request>>
    var revision: nat

    function View(): A.State
      reads this
    {
      A.State(users, pendingRequests, revision)
    }

    constructor ()
      ensures View() == A.INIT
    {
      users, pendingRequests, revision := map[], map[], 0;
    }

    method Remove(user: string, sessionId: string)
      modifies this`users, this`pendingRequests
      ensures View() == A.Step(old(View()), A.Removed(user, sessionId))
    {
      if user in users {
        users := users[user := A.Without(users[user], sessionId)];
      }
      pendingRequests := pendingRequests - {A.Place(user, sessionId)};
    }

    /** The chain of tests on the frame's kind: `processing` and `runId`, or nothing. */
    method Classify(previous: Option<A.Entry>, f: A.Frame, waiting: bool) returns (verdict: Option<(bool, string)>)
      ensures verdict == A.Judge(previous, f, waiting)
    {
      var attention := A.SessionAttention(f);
      var processing, runId := false, f.runId;
      if f.body.Started? || f.body.UserText? {
        processing := true;
      } else if f.body.Complete? {
        processing := false;
      } else if f.body.Interrupted? || (f.body.Error? && f.body.terminal) {
        processing := false;
      } else if f.body.InputQueue? {
        var sending := A.FirstItem(f.body.items, A.Sending);
        if sending.Some? {
          processing := true;
          runId := if sending.value.runId != "" then sending.value.runId else sending.value.id;
        } else if exists i <- f.body.items :: i.status.Failed? && i.id == A.RunOf(previous) {
          processing := false;
        } else {
          return None;
        }
      } else if attention.Some? || f.body.Cancelled? || (f.body.ToolResult? && waiting) {
        processing := if previous.Some? then previous.value.processing else true;
      } else {
        return None;
      }
      return Some((processing, runId));
    }

    /** `receive` */
    method Receive(user: string, f: A.Frame, now: string) returns (published: Option<A.Entry>)
      modifies this
      ensures View() == A.Step(old(View()), A.Frames(user, f, now))
      ensures published.Some? <==> revision == old(revision) + 1
      ensures published.Some? ==> published.value.revision == revision
    {
      published := None;
      if f.sessionId == "" { return; }
      var sessions := A.Sessions(View(), user);
      var previous := A.Find(sessions, f.sessionId);
      if A.Stale(previous, f) { return; }
      var place := A.Place(user, f.sessionId);
      var pending := A.Carried(View(), place, previous, f);
      var verdict := Classify(previous, f, pending != map[]);
      if verdict.None? { return; }
      var processing := verdict.value.0;
      var runId := A.Or(verdict.value.1, A.RunOf(previous));
      if A.Resurrects(previous, processing, runId) { return; }
      pending := A.PendingAfter(pending, f, processing);
      pendingRequests := if pending != map[] then pendingRequests[place := pending] else pendingRequests - {place};
      var activity := A.NewEntry(previous, f, processing, runId, pending, now, revision + 1);
      if previous.Some? && A.SameActivity(previous.value, activity) { return; }
      revision := revision + 1;
      sessions := Store(sessions, activity);
      users := users[user := sessions];
      published := Some(activity);
    }

    /** Put an activity at the end, and evict the oldest idle one if there are too many. */
    method Store(sessions: seq<A.Entry>, activity: A.Entry) returns (stored: seq<A.Entry>)
      ensures stored == A.Store(sessions, activity)
    {
      stored := A.Without(sessions, activity.sessionId) + [activity];
      if |stored| > A.SESSION_LIMIT {
        stored := A.DropIdle(stored);
      }
    }
  }
}
