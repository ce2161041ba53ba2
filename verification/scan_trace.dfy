/** Key streams fed to a listening scan buffer, and what the buffer holds
    and emits in terms of the stream alone: every barcode is the mapped
    characters typed since the last reset, where a reset is a gap longer
    than the timeout or a terminator key (Services/BarcodeService.cs). */
module ScanTrace {
  import opened Wrappers
  import opened Keys
  import opened ScanBuffer

  /** One key press and the clock reading when it was delivered. */
  datatype KeyEvent = KeyEvent(key: Key, at: int)

  function KeysOf(es: seq<KeyEvent>): (ks: seq<Key>)
    ensures |ks| == |es|
    ensures forall i :: 0 <= i < |es| ==> ks[i] == es[i].key
  {
    seq(|es|, i requires 0 <= i < |es| => es[i].key)
  }

  /** Feeds the events to `ProcessKeyInput` in order; the second component
      holds, per event, what that event emitted. */
  function Feed(s: Session, es: seq<KeyEvent>): (r: (Session, seq<Option<seq<char>>>))
    ensures |r.1| == |es|
    ensures r.0.listening == s.listening
    ensures s.listening && es != [] ==> r.0.lastKeyPress == es[|es| - 1].at
    ensures !s.listening ==> r.0 == s && forall i :: 0 <= i < |es| ==> r.1[i] == None
    decreases |es|
  {
    if es == [] then (s, [])
    else
      var before := Feed(s, es[..|es| - 1]);
      var e := es[|es| - 1];
      var step := ProcessKeyInput(before.0, e.key, e.at);
      (step.0, before.1 + [step.1])
  }

  /** Whether the characters buffered before position `k` of the stream
      are gone by the time event `k` is handled: event `k` arrives more
      than the timeout after its predecessor (or after the session's last
      key, for the first event), or event `k - 1` was a terminator.
      Position `|es|` is a reset only through a final terminator. */
  predicate StartsFresh(s: Session, es: seq<KeyEvent>, k: int)
    requires 0 <= k <= |es|
  {
    (k < |es| && (if k == 0 then es[0].at - s.lastKeyPress else es[k].at - es[k - 1].at) > Timeout)
    || (k > 0 && IsTerminator(es[k - 1].key))
  }

  /** The last reset position at or before `n`, if there is one. */
  function LastFresh(s: Session, es: seq<KeyEvent>, n: nat): (r: Option<nat>)
    requires n <= |es|
    ensures r.Some? ==> r.value <= n && StartsFresh(s, es, r.value)
    ensures r.Some? ==> forall k :: r.value < k <= n ==> !StartsFresh(s, es, k)
    ensures r.None? ==> forall k :: 0 <= k <= n ==> !StartsFresh(s, es, k)
    decreases n
  {
    if StartsFresh(s, es, n) then Some(n)
    else if n == 0 then None
    else LastFresh(s, es, n - 1)
  }

  /** What the buffer holds just before event `i` takes effect (after its
      timeout check): the mapped characters of the events since the last
      reset, preceded by the session's own buffer when there was none. */
  function Pending(s: Session, es: seq<KeyEvent>, i: nat): seq<char>
    requires i <= |es|
  {
    match LastFresh(s, es, i)
    case None => s.buffer + Mapped(KeysOf(es[..i]))
    case Some(j) => Mapped(KeysOf(es[j..i]))
  }

  lemma LastFreshAgree(s: Session, a: seq<KeyEvent>, b: seq<KeyEvent>, n: nat)
    requires n <= |a| && n <= |b|
    requires forall k :: 0 <= k <= n ==> StartsFresh(s, a, k) == StartsFresh(s, b, k)
    ensures LastFresh(s, a, n) == LastFresh(s, b, n)
    decreases n
  {
    if n > 0 && !StartsFresh(s, a, n) {
      LastFreshAgree(s, a, b, n - 1);
    }
  }

  /** The pending characters at `i` depend only on the events before and
      at `i`. */
  lemma PendingPrefix(s: Session, es: seq<KeyEvent>, m: nat, i: nat)
    requires i < m <= |es|
    ensures Pending(s, es[..m], i) == Pending(s, es, i)
  {
    var pre := es[..m];
    forall k | 0 <= k <= i
      ensures StartsFresh(s, pre, k) == StartsFresh(s, es, k)
    {
    }
    LastFreshAgree(s, pre, es, i);
    assert pre[..i] == es[..i];
    match LastFresh(s, es, i)
    case None =>
    case Some(j) =>
      assert pre[j..i] == es[j..i];
  }

  lemma MappedSnoc(es: seq<KeyEvent>, j: nat, n: nat)
    requires j <= n < |es|
    ensures Mapped(KeysOf(es[j..n + 1])) == Mapped(KeysOf(es[j..n])) + KeyToChar(es[n].key).ToSeq()
  {
    var ks := KeysOf(es[j..n + 1]);
    var front := KeysOf(es[j..n]);
    assert |ks| == |front| + 1;
    forall i | 0 <= i < |front|
      ensures ks[i] == front[i]
    {
      assert es[j..n + 1][i] == es[j..n][i];
    }
    assert ks[..|ks| - 1] == front;
    assert ks[|ks| - 1] == es[n].key;
  }

  /** How the pending characters grow across the last event. */
  lemma PendingStep(s: Session, es: seq<KeyEvent>, n: nat)
    requires n == |es| - 1
    ensures IsTerminator(es[n].key) ==> Pending(s, es, n + 1) == []
    ensures !IsTerminator(es[n].key) ==>
      Pending(s, es, n + 1) == Pending(s, es, n) + KeyToChar(es[n].key).ToSeq()
  {
    if IsTerminator(es[n].key) {
      assert LastFresh(s, es, n + 1) == Some(n + 1);
      assert KeysOf(es[n + 1..n + 1]) == [];
    } else {
      assert LastFresh(s, es, n + 1) == LastFresh(s, es, n);
      MappedSnoc(es, 0, n);
      assert es[0..n + 1] == es[..n + 1] && es[0..n] == es[..n];
      match LastFresh(s, es, n)
      case None =>
      case Some(j) => MappedSnoc(es, j, n);
    }
  }

  /** The buffer event `n` sees after its timeout check is the pending
      characters at `n`, given a session whose buffer is the pending
      characters of the prefix and whose clock is that of event `n - 1`. */
  lemma CarriedIsPending(s: Session, es: seq<KeyEvent>, n: nat, before: Session)
    requires n < |es|
    requires before.buffer == Pending(s, es[..n], n)
    requires before.lastKeyPress == if n == 0 then s.lastKeyPress else es[n - 1].at
    ensures Carried(before, es[n].at) == Pending(s, es, n)
  {
    var pre := es[..n];
    if Stale(before, es[n].at) {
      assert StartsFresh(s, es, n);
      assert KeysOf(es[n..n]) == [];
    } else {
      forall k | 0 <= k <= n
        ensures StartsFresh(s, pre, k) == StartsFresh(s, es, k)
      {
      }
      LastFreshAgree(s, pre, es, n);
      assert pre[..n] == es[..n];
      match LastFresh(s, es, n)
      case None =>
      case Some(j) =>
        assert pre[j..n] == es[j..n];
    }
  }

  /** After a stream of key events, a listening session's buffer holds
      exactly the mapped characters typed since the last reset. */
  lemma {:induction false} FeedBuffer(s: Session, es: seq<KeyEvent>)
    requires s.listening
    ensures Feed(s, es).0.buffer == Pending(s, es, |es|)
    decreases |es|
  {
    if es == [] {
      assert es[..0] == [];
    } else {
      var n := |es| - 1;
      FeedBuffer(s, es[..n]);
      CarriedIsPending(s, es, n, Feed(s, es[..n]).0);
      PendingStep(s, es, n);
    }
  }

  /** What event `i` emits according to the stream alone. */
  function Expected(s: Session, es: seq<KeyEvent>, i: nat): Option<seq<char>>
    requires i < |es|
  {
    if IsTerminator(es[i].key) && Pending(s, es, i) != [] then Some(Pending(s, es, i)) else None
  }

  lemma ExpectedPrefix(s: Session, es: seq<KeyEvent>, m: nat, i: nat)
    requires i < m <= |es|
    ensures Expected(s, es[..m], i) == Expected(s, es, i)
  {
    PendingPrefix(s, es, m, i);
  }

  lemma FeedEmitsLast(s: Session, es: seq<KeyEvent>)
    requires s.listening && es != []
    ensures Feed(s, es).1[|es| - 1] == Expected(s, es, |es| - 1)
  {
    var n := |es| - 1;
    FeedBuffer(s, es[..n]);
    CarriedIsPending(s, es, n, Feed(s, es[..n]).0);
  }

  /** Adding an event leaves what the earlier events emitted unchanged. */
  lemma FeedKeepsEarlierOutputs(s: Session, es: seq<KeyEvent>)
    requires es != []
    ensures Feed(s, es).1[..|es| - 1] == Feed(s, es[..|es| - 1]).1
  {
  }

  /** Each event of a stream fed to a listening session emits exactly this:
      a terminator emits the characters typed since the last reset when
      there are any, and every other event emits nothing. */
  lemma {:induction false} FeedEmits(s: Session, es: seq<KeyEvent>)
    requires s.listening
    ensures forall i :: 0 <= i < |es| ==>
      Feed(s, es).1[i] == Expected(s, es, i)
    decreases |es|
  {
    if es != [] {
      var n := |es| - 1;
      var pre := es[..n];
      FeedEmits(s, pre);
      FeedEmitsLast(s, es);
      FeedKeepsEarlierOutputs(s, es);
      forall i | 0 <= i < n
        ensures Feed(s, es).1[i] == Expected(s, es, i)
      {
        ExpectedPrefix(s, es, n, i);
      }
    }
  }

  /** A scan burst: keys no further apart than the timeout, with a single
      terminator at the end.  The burst emits once, at the terminator, the
      session's buffer followed by the mapped characters of the keys, or
      nothing when that is empty; the buffer is left empty. */
  lemma ScanBurst(s: Session, es: seq<KeyEvent>)
    requires s.listening && |es| >= 1
    requires es[0].at - s.lastKeyPress <= Timeout
    requires forall i :: 0 < i < |es| ==> es[i].at - es[i - 1].at <= Timeout
    requires forall i :: 0 <= i < |es| - 1 ==> !IsTerminator(es[i].key)
    requires IsTerminator(es[|es| - 1].key)
    ensures forall i :: 0 <= i < |es| - 1 ==> Feed(s, es).1[i] == None
    ensures var b := s.buffer + Mapped(KeysOf(es[..|es| - 1]));
      Feed(s, es).1[|es| - 1] == if b == [] then None else Some(b)
    ensures Feed(s, es).0.buffer == []
  {
    var n := |es| - 1;
    FeedEmits(s, es);
    FeedBuffer(s, es);
    assert StartsFresh(s, es, |es|);
    assert LastFresh(s, es, |es|) == Some(|es|);
    assert KeysOf(es[|es|..|es|]) == [];
    assert forall k :: 0 <= k <= n ==> !StartsFresh(s, es, k);
    assert LastFresh(s, es, n).None?;
  }

  /** Milliseconds as clock ticks. */
  function Ms(n: int): int {
    n * TicksPerMillisecond
  }

  /** Starting a service created at time `created` and scanning C, S, 0,
      0, 1 and Enter, 10 ms apart, emits nothing until the Enter, which
      emits "CS001". */
  lemma ScenarioWholeScan(created: int)
    ensures
      var s0 := StartListening(Init(created));
      var r1 := ProcessKeyInput(s0, A + 2, created + Ms(10));
      var r2 := ProcessKeyInput(r1.0, A + 18, created + Ms(20));
      var r3 := ProcessKeyInput(r2.0, D0, created + Ms(30));
      var r4 := ProcessKeyInput(r3.0, D0, created + Ms(40));
      var r5 := ProcessKeyInput(r4.0, D0 + 1, created + Ms(50));
      var r6 := ProcessKeyInput(r5.0, Enter, created + Ms(60));
      r1.1 == None && r2.1 == None && r3.1 == None && r4.1 == None && r5.1 == None
      && r6.1 == Some("CS001") && r6.0.buffer == []
  {
    var s0 := StartListening(Init(created));
    assert s0 == Session(true, [], created);
    var r1 := ProcessKeyInput(s0, A + 2, created + Ms(10));
    assert r1.0 == Session(true, "C", created + Ms(10)) && r1.1 == None;
    var r2 := ProcessKeyInput(r1.0, A + 18, created + Ms(20));
    assert r2.0 == Session(true, "CS", created + Ms(20)) && r2.1 == None;
    var r3 := ProcessKeyInput(r2.0, D0, created + Ms(30));
    assert r3.0 == Session(true, "CS0", created + Ms(30)) && r3.1 == None;
    var r4 := ProcessKeyInput(r3.0, D0, created + Ms(40));
    assert r4.0 == Session(true, "CS00", created + Ms(40)) && r4.1 == None;
    var r5 := ProcessKeyInput(r4.0, D0 + 1, created + Ms(50));
    assert r5.0 == Session(true, "CS001", created + Ms(50)) && r5.1 == None;
    var r6 := ProcessKeyInput(r5.0, Enter, created + Ms(60));
    assert r6.0 == Session(true, [], created + Ms(60)) && r6.1 == Some("CS001");
  }

  /** C and S, a 200 ms pause, then 0, 0, 1 and Enter: the pause discards
      "CS" and the Enter emits "001". */
  lemma ScenarioPauseDiscards(created: int)
    ensures
      var s0 := StartListening(Init(created));
      var r1 := ProcessKeyInput(s0, A + 2, created + Ms(10));
      var r2 := ProcessKeyInput(r1.0, A + 18, created + Ms(20));
      var r3 := ProcessKeyInput(r2.0, D0, created + Ms(220));
      var r4 := ProcessKeyInput(r3.0, D0, created + Ms(230));
      var r5 := ProcessKeyInput(r4.0, D0 + 1, created + Ms(240));
      var r6 := ProcessKeyInput(r5.0, Enter, created + Ms(250));
      r1.1 == None && r2.1 == None && r3.1 == None && r4.1 == None && r5.1 == None
      && r6.1 == Some("001") && r6.0.buffer == []
  {
    var s0 := StartListening(Init(created));
    assert s0 == Session(true, [], created);
    var r1 := ProcessKeyInput(s0, A + 2, created + Ms(10));
    assert r1.0 == Session(true, "C", created + Ms(10)) && r1.1 == None;
    var r2 := ProcessKeyInput(r1.0, A + 18, created + Ms(20));
    assert r2.0 == Session(true, "CS", created + Ms(20)) && r2.1 == None;
    assert Stale(r2.0, created + Ms(220));
    var r3 := ProcessKeyInput(r2.0, D0, created + Ms(220));
    assert r3.0 == Session(true, "0", created + Ms(220)) && r3.1 == None;
    var r4 := ProcessKeyInput(r3.0, D0, created + Ms(230));
    assert r4.0 == Session(true, "00", created + Ms(230)) && r4.1 == None;
    var r5 := ProcessKeyInput(r4.0, D0 + 1, created + Ms(240));
    assert r5.0 == Session(true, "001", created + Ms(240)) && r5.1 == None;
    var r6 := ProcessKeyInput(r5.0, Enter, created + Ms(250));
    assert r6.0 == Session(true, [], created + Ms(250)) && r6.1 == Some("001");
  }

  /** Enter with an empty buffer emits nothing and leaves the session
      listening with an empty buffer. */
  lemma ScenarioStrayEnter(t: int, now: int)
    ensures ProcessKeyInput(Session(true, [], t), Enter, now) == (Session(true, [], now), None)
  {
  }
}
