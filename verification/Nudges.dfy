/**
 Per-scope nudge coalescing on one event loop: the first nudge of an idle scope goes out at once and opens a window;
 later ones in the window collapse into one trailing flush, which opens the next window.
 */
module Nudges {
  import opened Basics

  type Scope = Token

  datatype Event = Nudge(scope: Scope) | Shutdown | Data(payload: Token)

  const COALESCE: Time := 1000
  const QUEUE_MAX: nat := 512

  /** A scope's nudge, as published or as fanned out. */
  datatype Stamp = Stamp(scope: Scope, at: Time)

  ghost predicate WentOut(fanned: seq<Stamp>, slack: Time, n: Stamp) {
    exists f :: 0 <= f < |fanned| && fanned[f].scope == n.scope && n.at <= fanned[f].at <= n.at + 1000 + slack
  }

  /** The nudge's scope has a trailing flush to come, within a window of the nudge. */
  predicate Waits(openWindows: map<Scope, Time>, repeated: set<Scope>, n: Stamp) {
    n.scope in repeated && n.scope in openWindows && openWindows[n.scope] <= n.at + COALESCE
  }

  /** Every subscriber has got the event behind what it had, unless its queue is full at 512. */
  ghost predicate ToldAll(queues: map<nat, seq<Event>>, queues': map<nat, seq<Event>>, event: Event) {
    && queues'.Keys == queues.Keys
    && forall q | q in queues :: queues'[q] == if |queues[q]| < 512 then queues[q] + [event] else queues[q]
  }

  class Hub {
    /** How late a timer may fire. */
    const slack: Time
    var now: Time
    /** Subscriber queues, the open windows with the time they are due to close, and the scopes nudged again. */
    var subscribers: map<nat, seq<Event>>
    var openWindows: map<Scope, Time>
    var repeated: set<Scope>

    /** Every plain nudge published and every one fanned out. */
    ghost var published: seq<Stamp>
    ghost var fanned: seq<Stamp>

    ghost predicate Valid()
      reads this
    {
      && slack >= 0
      && (forall s | s in repeated :: s in openWindows)
      && (forall s | s in openWindows :: now <= openWindows[s] + slack && openWindows[s] <= now + COALESCE)
      && (forall n | 0 <= n < |published| :: published[n].at <= now
            && (WentOut(fanned, slack, published[n]) || Waits(openWindows, repeated, published[n])))
      && (forall f | 0 <= f < |fanned| ::
            if fanned[f].scope in openWindows then fanned[f].at + COALESCE <= openWindows[fanned[f].scope]
            else fanned[f].at + COALESCE <= now)
      && Spaced(fanned)
    }

    constructor (slack: Time, now: Time)
      requires slack >= 0
      ensures Valid() && this.slack == slack && this.now == now && published == [] && fanned == []
      ensures subscribers == map[] && openWindows == map[] && repeated == {}
    {
      this.slack, this.now := slack, now;
      subscribers, openWindows, repeated, published, fanned := map[], map[], {}, [], [];
    }

    /** Offer the event to every subscriber; a full queue drops it. */
    method FanOut(event: Event)
      modifies this`subscribers
      ensures subscribers.Keys == old(subscribers).Keys
      ensures forall q | q in subscribers ::
        subscribers[q] == if |old(subscribers)[q]| < QUEUE_MAX then old(subscribers)[q] + [event] else old(subscribers)[q]
    {
      var todo := subscribers.Keys;
      while todo != {}
        invariant todo <= subscribers.Keys == old(subscribers).Keys
        invariant forall q | q in subscribers ::
          subscribers[q] == if q in todo || |old(subscribers)[q]| >= QUEUE_MAX then old(subscribers)[q]
                            else old(subscribers)[q] + [event]
        decreases |todo|
      {
        var q :| q in todo;
        if |subscribers[q]| < QUEUE_MAX {
          subscribers := subscribers[q := subscribers[q] + [event]];
        }
        todo := todo - {q};
      }
    }

    /** Time passes; a due timer fires within its slack. */
    method Elapse(span: Time)
      requires Valid() && span >= 0 && forall s | s in openWindows :: now + span <= openWindows[s] + slack
      modifies this`now
      ensures Valid() && now == old(now) + span
    {
      now := now + span;
    }

    /** A window's timer: flush once more if the scope was nudged again, else let it lead again. */
    method CloseWindow(scope: Scope)
      requires Valid() && scope in openWindows && openWindows[scope] <= now
      modifies this
      ensures Valid() && now == old(now) && published == old(published)
      ensures repeated == old(repeated) - {scope}
      ensures scope in old(repeated) ==>
        && fanned == old(fanned) + [Stamp(scope, now)] && openWindows == old(openWindows)[scope := now + COALESCE]
        && ToldAll(old(subscribers), subscribers, Nudge(scope))
      ensures scope !in old(repeated) ==>
        fanned == old(fanned) && openWindows == old(openWindows) - {scope} && subscribers == old(subscribers)
    {
      if scope in repeated {
        repeated := repeated - {scope};
        FanOut(Nudge(scope));
        fanned := fanned + [Stamp(scope, now)];
        openWindows := openWindows[scope := now + COALESCE];
        FannedMore(old(fanned), slack, published, Stamp(scope, now));
      } else {
        openWindows := openWindows - {scope};
      }
    }

    method Coalesce(scope: Scope)
      requires Valid()
      modifies this
      ensures Valid() && now == old(now) && published == old(published) + [Stamp(scope, now)]
      ensures scope in old(openWindows) ==>
        repeated == old(repeated) + {scope} && fanned == old(fanned) && openWindows == old(openWindows)
        && subscribers == old(subscribers)
      ensures scope !in old(openWindows) ==>
        repeated == old(repeated) && fanned == old(fanned) + [Stamp(scope, now)]
        && openWindows == old(openWindows)[scope := now + COALESCE]
        && ToldAll(old(subscribers), subscribers, Nudge(scope))
    {
      published := published + [Stamp(scope, now)];
      if scope in openWindows {
        repeated := repeated + {scope};
      } else {
        FanOut(Nudge(scope));
        fanned := fanned + [Stamp(scope, now)];
        openWindows := openWindows[scope := now + COALESCE];
        FannedMore(old(fanned), slack, published, Stamp(scope, now));
      }
    }

    /** Plain nudges are coalesced; everything else passes through at once. */
    method LocalPublish(event: Event)
      requires Valid()
      modifies this
      ensures Valid() && now == old(now)
      ensures event.Nudge? ==> published == old(published) + [Stamp(event.scope, now)]
      ensures !event.Nudge? ==>
        published == old(published) && fanned == old(fanned) && openWindows == old(openWindows) && repeated == old(repeated)
      ensures if event.Nudge? && event.scope in old(openWindows) then subscribers == old(subscribers)
              else ToldAll(old(subscribers), subscribers, event)
      ensures event.Nudge? && event.scope in old(openWindows) ==>
        event.scope in openWindows && event.scope in repeated && fanned == old(fanned)
      ensures event.Nudge? && event.scope !in old(openWindows) ==>
        event.scope in openWindows && fanned == old(fanned) + [Stamp(event.scope, now)]
    {
      if event.Nudge? {
        Coalesce(event.scope);
      } else {
        FanOut(event);
      }
    }
  }

  /** Two fan-outs of one scope are at least a window apart. */
  ghost predicate Spaced(fanned: seq<Stamp>) {
    forall i, j | 0 <= i < j < |fanned| && fanned[i].scope == fanned[j].scope :: fanned[i].at + COALESCE <= fanned[j].at
  }

  /** A fan-out serves every nudge of its scope of the last window, and takes nothing from the others. */
  lemma FannedMore(fanned: seq<Stamp>, slack: Time, published: seq<Stamp>, stamp: Stamp)
    ensures forall n | n in published && WentOut(fanned, slack, n) :: WentOut(fanned + [stamp], slack, n)
    ensures forall n | n in published && n.scope == stamp.scope && n.at <= stamp.at <= n.at + COALESCE + slack ::
      WentOut(fanned + [stamp], slack, n)
  {
    var more := fanned + [stamp];
    forall n | n in published && WentOut(fanned, slack, n) ensures WentOut(more, slack, n) {
      var f :| 0 <= f < |fanned| && fanned[f].scope == n.scope && n.at <= fanned[f].at <= n.at + COALESCE + slack;
      assert more[f] == fanned[f];
    }
    assert more[|fanned|] == stamp;
  }

  /** When a scope's window is closed, every nudge of it has been fanned out, within a window and the timer's slack. */
  lemma NothingPending(h: Hub, n: nat)
    requires h.Valid() && n < |h.published| && h.published[n].scope !in h.openWindows
    ensures WentOut(h.fanned, h.slack, h.published[n])
  {
  }

  /** A scope's fan-outs in any stretch of time are at most one per window, and one more. */
  lemma {:induction false} RateBound(fanned: seq<Stamp>, scope: Scope, from: Time, to: Time, n: nat, idx: seq<nat>)
    requires Spaced(fanned) && |idx| == n > 0
    requires forall k | 0 <= k < n :: idx[k] < |fanned| && fanned[idx[k]].scope == scope && from <= fanned[idx[k]].at <= to
    requires forall k | 0 <= k < n - 1 :: idx[k] < idx[k + 1]
    ensures (n - 1) * 1000 <= fanned[idx[n - 1]].at - from
    ensures (n - 1) * 1000 <= to - from
  {
    if n > 1 {
      RateBound(fanned, scope, from, to, n - 1, idx[..n - 1]);
      assert idx[n - 2] < idx[n - 2 + 1];
    }
  }
}
