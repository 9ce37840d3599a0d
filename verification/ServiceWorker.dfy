/** The notification state of the service worker, updated in place by its handlers. */
module ServiceWorker {
  import opened Prelude
  import W = Watermark

  class NotificationStore {
    var seen: seq<W.Key>
    var pending: map<string, W.Record>
    var readProgress: map<string, W.Record>
    var scope: W.Scope
    var preferences: Option<W.Preferences>
    var lastSound: int

    function View(): W.State
      reads this
    {
      W.State(seen, pending, readProgress, scope, preferences, lastSound)
    }

    constructor ()
      ensures View() == W.INIT
    {
      seen, pending, readProgress, scope, preferences, lastSound := [], map[], map[], W.Null, None, 0;
    }

    /** The end of every `notificationState` transaction. */
    method TrimSeen()
      modifies this`seen
      ensures seen == W.Trim(old(seen))
    {
      if |seen| > W.SEEN_LIMIT {
        seen := seen[|seen| - W.SEEN_LIMIT..];
      }
    }

    /** Read progress of a session has changed: drop its pending reminder if that is read now. */
    method DropPending(session: string)
      modifies this`pending
      ensures View() == W.DropPending(old(View()), session)
    {
      if session in pending && session in readProgress
         && (pending[session].id == readProgress[session].id
             || (readProgress[session].createdAt.At?
                 && (!pending[session].createdAt.At?
                     || pending[session].createdAt.time <= readProgress[session].createdAt.time)))
      {
        pending := pending - {session};
      }
    }

    method Place(r: W.Record, visible: bool)
      modifies this`pending, this`readProgress
      ensures View() == W.Place(old(View()), r, visible)
    {
      if r.sessionId == "" || r.id == "" { return; }
      if visible {
        readProgress := readProgress[r.sessionId := r];
        DropPending(r.sessionId);
      } else {
        pending := pending[r.sessionId := r];
      }
    }

    /** `showNotificationOnce`, once it is known whether the conversation is on screen. */
    method ShowNotificationOnce(p: W.Payload, visible: bool, now: int) returns (accepted: bool, show: bool)
      modifies this
      ensures View() == W.Step(old(View()), W.Reminder(p, visible, now))
      ensures accepted == W.Accepts(old(View()), p)
      ensures show == (accepted && W.Appearance(old(View()), p, visible, now).0)
    {
      accepted, show := false, false;
      var key := W.KeyOf(p.scope, p.record);
      if W.Foreign(View(), p.scope) || key in seen {
        TrimSeen();
        return;
      }
      accepted := p.record.sessionId == "" || p.record.id == ""
                  || (!W.AtOrBefore(Some(p.record), W.Get(readProgress, p.record.sessionId))
                      && !W.AtOrBefore(Some(p.record), W.Get(pending, p.record.sessionId)));
      var look := W.Appearance(View(), p, visible, now);
      seen := seen + [key];
      TrimSeen();
      if !accepted { return; }
      Place(p.record, visible);
      show := look.0;
      if show && !look.1 {
        lastSound := now;
      }
    }

    method Advance(r: W.Record)
      modifies this`readProgress
      ensures View() == W.Advance(old(View()), r)
    {
      var progress := r;
      if r.createdAt.Missing? && r.sessionId in pending && pending[r.sessionId].id == r.id {
        progress := r.(createdAt := pending[r.sessionId].createdAt);
      }
      var previous := W.Get(readProgress, r.sessionId);
      var enrich := previous.Some? && previous.value.id == progress.id && progress.createdAt.At?
                    && (!previous.value.createdAt.At? || progress.createdAt.time > previous.value.createdAt.time);
      if enrich || !W.AtOrBefore(Some(progress), previous) {
        readProgress := readProgress[r.sessionId := progress];
      }
    }

    method ReadOne(scope: W.Scope, r: W.Record)
      modifies this`seen, this`readProgress, this`pending
      ensures View() == W.ReadOne(old(View()), scope, r)
    {
      if r.sessionId == "" || r.id == "" { return; }
      var key := W.KeyOf(scope, r);
      if key !in seen {
        seen := seen + [key];
      }
      Advance(r);
      DropPending(r.sessionId);
    }

    /** The `notification:read` handler. */
    method OnRead(scope: W.Scope, records: seq<W.Record>)
      modifies this`seen, this`readProgress, this`pending
      ensures View() == W.Step(old(View()), W.ReadReport(scope, records))
    {
      if scope == this.scope {
        ghost var start := View();
        for i := 0 to |records|
          invariant this.scope == scope && preferences == start.preferences && lastSound == start.lastSound
          invariant W.ReadAll(start, scope, records) == W.ReadAll(View(), scope, records[i..])
        {
          assert records[i..][1..] == records[i + 1..];
          ReadOne(scope, records[i]);
        }
      }
      TrimSeen();
    }

    /** The `notification:preferences` handler. */
    method OnPreferences(scope: W.Scope, preferences: Option<W.Preferences>)
      modifies this
      ensures View() == W.Step(old(View()), W.PreferencesChange(scope, preferences))
    {
      if W.Foreign(View(), scope) {
        pending, seen, readProgress := map[], [], map[];
      }
      if scope.Name? && scope.name != "" {
        this.scope := scope;
      }
      this.preferences := preferences;
      TrimSeen();
    }
  }
}
