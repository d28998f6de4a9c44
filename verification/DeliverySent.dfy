/** When a sent notification stays sent, with workers interleaved call by call. */
module DeliverySent {
  import opened Base
  import opened Delivery
  import opened DeliveryInterleaving

  /** Some worker on the notification stands at this place. */
  ghost predicate AnyAt(s: Machine, nid: Id, place: Place) {
    exists w :: w in s.workers && s.workers[w].message.nid == nid && s.workers[w].place == place
  }

  /** The workers on the notification that are about to count a failed attempt. */
  function CountingOn(s: Machine, nid: Id): set<int> {
    set w | w in s.workers && s.workers[w].message.nid == nid && s.workers[w].place == Counting
  }

  /** The attempts still to be counted do not exhaust the schedule. */
  predicate WithinSchedule(s: Machine, nid: Id)
    requires nid in s.rows
  {
    CountingOn(s, nid) == {} || s.rows[nid].attempts + |CountingOn(s, nid)| <= MAX_ATTEMPTS
  }

  /** No worker is between the journal check and the end of a send, or about to give up, and none will be. */
  ghost predicate Final(s: Machine, nid: Id)
    requires nid in s.rows
  {
    !AnyAt(s, nid, Sending) && !AnyAt(s, nid, GivingUp) && WithinSchedule(s, nid)
  }

  // ----- What is to be kept -----

  ghost predicate SentOrDeleted(s: Machine, nid: Id) {
    nid in s.rows ==> s.rows[nid].status == RowSent
  }

  ghost predicate Sends(s: Machine, a: Action, nid: Id)
    requires Enabled(s, a)
  {
    a.Send? && s.workers[a.w].message.nid == nid
  }

  /** Along the run the row stays sent while it exists, and the sender is not called for it. */
  ghost predicate StaysSent(s: Machine, run: seq<Action>, nid: Id)
    requires EnabledRun(s, run)
    decreases |run|
  {
    && SentOrDeleted(s, nid)
    && (run == [] || (!Sends(s, run[0], nid) && StaysSent(Next(s, run[0]), run[1..], nid)))
  }

  // ----- The condition is enough -----

  ghost predicate Quiet(s: Machine, nid: Id) {
    && nid in s.journal && SentOrDeleted(s, nid) && !AnyAt(s, nid, Sending)
    && (nid in s.rows ==> Final(s, nid))
  }

  lemma CountingAfter(s: Machine, a: Action, nid: Id)
    requires Enabled(s, a) && !AnyAt(s, nid, Sending)
    ensures CountingOn(Next(s, a), nid) ==
            if a.Count? && s.workers[a.w].message.nid == nid then CountingOn(s, nid) - {a.w} else CountingOn(s, nid)
  {
  }

  lemma NoneComes(s: Machine, a: Action, nid: Id, place: Place)
    requires Quiet(s, nid) && Enabled(s, a) && (place == Sending || (place == GivingUp && nid in Next(s, a).rows))
    ensures !AnyAt(Next(s, a), nid, place)
  {
    if a.Count? && s.workers[a.w].message.nid == nid {
      assert a.w in CountingOn(s, nid);
    }
  }

  lemma QuietStep(s: Machine, a: Action, nid: Id)
    requires Quiet(s, nid) && Enabled(s, a)
    ensures !Sends(s, a, nid) && Quiet(Next(s, a), nid)
  {
    var t := Next(s, a);
    NoneComes(s, a, nid, Sending);
    CountingAfter(s, a, nid);
    if nid in t.rows {
      NoneComes(s, a, nid, GivingUp);
      if a.Count? && s.workers[a.w].message.nid == nid {
        assert a.w in CountingOn(s, nid);
      }
    }
  }

  lemma {:induction false} QuietRun(s: Machine, run: seq<Action>, nid: Id)
    requires Quiet(s, nid) && EnabledRun(s, run)
    ensures StaysSent(s, run, nid)
    decreases |run|
  {
    if run != [] {
      QuietStep(s, run[0], nid);
      QuietRun(Next(s, run[0]), run[1..], nid);
    }
  }

  // ----- The condition is needed -----

  ghost predicate Breaks(s: Machine, run: seq<Action>, nid: Id) {
    EnabledRun(s, run) && !StaysSent(s, run, nid)
  }

  lemma OneStepBreaks(s: Machine, a: Action, nid: Id)
    requires Enabled(s, a) && (Sends(s, a, nid) || !SentOrDeleted(Next(s, a), nid))
    ensures Breaks(s, [a], nid)
  {
    assert [a][1..] == [] && EnabledRun(Next(s, a), []);
  }

  lemma LaterBreaks(s: Machine, a: Action, run: seq<Action>, nid: Id)
    requires Enabled(s, a) && Breaks(Next(s, a), run, nid)
    ensures Breaks(s, [a] + run, nid)
  {
    assert ([a] + run)[0] == a && ([a] + run)[1..] == run;
  }

  /** Counting one after another, one of them draws a number beyond the schedule and gives up. */
  lemma {:induction false} CountingBreaks(s: Machine, nid: Id) returns (run: seq<Action>)
    requires nid in s.rows && CountingOn(s, nid) != {}
    requires s.rows[nid].attempts + |CountingOn(s, nid)| > MAX_ATTEMPTS
    ensures Breaks(s, run, nid)
    decreases |CountingOn(s, nid)|
  {
    Inhabited(CountingOn(s, nid));
    var w :| w in CountingOn(s, nid);
    var t := Next(s, Count(w, true));
    if s.rows[nid].attempts >= MAX_ATTEMPTS {
      OneStepBreaks(t, GiveUp(w, true), nid);
      run := [GiveUp(w, true)];
    } else {
      assert CountingOn(t, nid) == CountingOn(s, nid) - {w};
      run := CountingBreaks(t, nid);
    }
    LaterBreaks(s, Count(w, true), run, nid);
    run := [Count(w, true)] + run;
  }

  lemma NotFinalBreaks(s: Machine, nid: Id) returns (run: seq<Action>)
    requires nid in s.rows && !Final(s, nid)
    ensures Breaks(s, run, nid)
  {
    if AnyAt(s, nid, Sending) {
      var w :| w in s.workers && s.workers[w].message.nid == nid && s.workers[w].place == Sending;
      run := [Send(w, Delivered)];
      OneStepBreaks(s, run[0], nid);
    } else if AnyAt(s, nid, GivingUp) {
      var w :| w in s.workers && s.workers[w].message.nid == nid && s.workers[w].place == GivingUp;
      run := [GiveUp(w, true)];
      OneStepBreaks(s, run[0], nid);
    } else {
      run := CountingBreaks(s, nid);
    }
  }

  /**
   Main result: a sent row stays sent, and its notification is not sent again, over all further runs of
   any number of workers with redeliveries and failing calls, if and only if at this moment no worker on
   it is about to send or to give up, and the attempts still to be counted stay within the schedule.
   */
  lemma SentStaysSentIff(s: Machine, nid: Id)
    requires nid in s.rows && s.rows[nid].status == RowSent && nid in s.journal
    ensures (forall run :: EnabledRun(s, run) ==> StaysSent(s, run, nid)) <==> Final(s, nid)
  {
    if Final(s, nid) {
      forall run | EnabledRun(s, run) ensures StaysSent(s, run, nid) {
        QuietRun(s, run, nid);
      }
    } else {
      var run := NotFinalBreaks(s, nid);
      assert EnabledRun(s, run) && !StaysSent(s, run, nid);
    }
  }
}
