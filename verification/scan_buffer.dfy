/** The barcode scan buffer (Services/BarcodeService.cs): a listening flag,
    the characters buffered since the last reset, and the time of the last
    processed key.  The wall clock becomes an explicit `now` argument and the
    `BarcodeScanned` event becomes the optional string a key press returns. */
module ScanBuffer {
  import opened Wrappers
  import opened Keys

  /** Timestamps are integers in clock ticks of 100 nanoseconds. */
  const TicksPerMillisecond: int := 10000

  /** Keys further apart than this belong to different scans: 100 ms. */
  const Timeout: int := 100 * TicksPerMillisecond

  datatype Session = Session(listening: bool, buffer: seq<char>, lastKeyPress: int)

  /** A fresh service: not listening, empty buffer, and the clock reading
      taken when the service was created. */
  function Init(createdAt: int): (s: Session)
    ensures Valid(s)
    ensures !s.listening && s.lastKeyPress == createdAt
  {
    Session(false, [], createdAt)
  }

  /** The invariant every reachable session keeps: a stopped session holds
      no characters, and every buffered character is one the key table can
      produce. */
  predicate Valid(s: Session) {
    (!s.listening ==> s.buffer == [])
    && forall i :: 0 <= i < |s.buffer| ==> InAlphabet(s.buffer[i])
  }

  function StartListening(s: Session): (r: Session)
    ensures r.listening
    ensures r.buffer == s.buffer && r.lastKeyPress == s.lastKeyPress
    ensures s.listening ==> r == s
    ensures Valid(s) ==> Valid(r)
  {
    if s.listening then s else s.(listening := true)
  }

  function StopListening(s: Session): (r: Session)
    ensures !r.listening
    ensures r.lastKeyPress == s.lastKeyPress
    ensures s.listening ==> r.buffer == []
    ensures !s.listening ==> r == s
    ensures Valid(s) ==> Valid(r)
  {
    if !s.listening then s else s.(listening := false, buffer := [])
  }

  /** Whether a key arriving at `now` comes too late to continue the scan
      in progress: strictly more than the timeout after the previous key. */
  predicate Stale(s: Session, now: int) {
    now - s.lastKeyPress > Timeout
  }

  /** The buffer a key arriving at `now` sees: emptied when the key is
      stale, kept otherwise. */
  function Carried(s: Session, now: int): (b: seq<char>)
    ensures Stale(s, now) ==> b == []
    ensures !Stale(s, now) ==> b == s.buffer
  {
    if Stale(s, now) then [] else s.buffer
  }

  /** One key press at time `now`.  A stopped session ignores it entirely.
      Otherwise a stale buffer is dropped, the clock is updated, a
      terminator emits the non-empty buffer and clears it, and any other key
      appends its character when the table maps it. */
  function ProcessKeyInput(s: Session, key: Key, now: int): (r: (Session, Option<seq<char>>))
    ensures !s.listening ==> r == (s, None)
    ensures s.listening ==> r.0.listening && r.0.lastKeyPress == now
    ensures s.listening && IsTerminator(key) ==>
      r.0.buffer == [] && (r.1.Some? <==> Carried(s, now) != []) && (r.1.Some? ==> r.1.value == Carried(s, now))
    ensures s.listening && !IsTerminator(key) ==>
      r.1 == None && r.0.buffer == Carried(s, now) + KeyToChar(key).ToSeq()
    ensures Valid(s) ==> Valid(r.0)
    ensures Valid(s) && r.1.Some? ==>
      r.1.value != [] && forall i :: 0 <= i < |r.1.value| ==> InAlphabet(r.1.value[i])
  {
    if !s.listening then (s, None)
    else
      var buffer := if now - s.lastKeyPress > Timeout then [] else s.buffer;
      var s' := s.(lastKeyPress := now);
      if key == Enter || key == Return then
        if |buffer| > 0 then (s'.(buffer := []), Some(buffer)) else (s'.(buffer := buffer), None)
      else
        match KeyToChar(key)
        case Some(c) => (s'.(buffer := buffer + [c]), None)
        case None => (s'.(buffer := buffer), None)
  }

  /** The calls a caller can make on the service. */
  datatype Op = Start | Stop | Press(key: Key, now: int)

  function Apply(s: Session, op: Op): (r: (Session, Option<seq<char>>))
  {
    match op
    case Start => (StartListening(s), None)
    case Stop => (StopListening(s), None)
    case Press(k, t) => ProcessKeyInput(s, k, t)
  }

  /** Runs a sequence of calls and collects the barcodes emitted, in order.
      From a valid session, every session reached is valid and every emitted
      barcode is non-empty and drawn from the alphabet. */
  function Run(s: Session, ops: seq<Op>): (r: (Session, seq<seq<char>>))
    requires Valid(s)
    ensures Valid(r.0)
    ensures forall j :: 0 <= j < |r.1| ==> r.1[j] != []
    ensures forall j, i :: 0 <= j < |r.1| && 0 <= i < |r.1[j]| ==> InAlphabet(r.1[j][i])
    ensures |r.1| <= |ops|
    decreases |ops|
  {
    if ops == [] then (s, [])
    else
      var step := Apply(s, ops[0]);
      var rest := Run(step.0, ops[1..]);
      (rest.0, step.1.ToSeq() + rest.1)
  }

  /** Starting is idempotent. */
  lemma StartIdempotent(s: Session)
    ensures StartListening(StartListening(s)) == StartListening(s)
  {
  }

  /** Stopping is idempotent. */
  lemma StopIdempotent(s: Session)
    ensures StopListening(StopListening(s)) == StopListening(s)
  {
  }

  /** After a stop, no key press changes anything or emits anything. */
  lemma PressAfterStopIsInert(s: Session, key: Key, now: int)
    ensures ProcessKeyInput(StopListening(s), key, now) == (StopListening(s), None)
  {
  }

  /** A gap of exactly the timeout still continues the scan; one tick more
      starts a new one. */
  lemma TimeoutBoundary(s: Session)
    requires s.listening
    ensures ProcessKeyInput(s, Enter, s.lastKeyPress + Timeout).1
            == (if s.buffer == [] then None else Some(s.buffer))
    ensures ProcessKeyInput(s, Enter, s.lastKeyPress + Timeout + 1).1 == None
  {
  }

  /** A run made only of key presses on a stopped session changes nothing
      and emits nothing. */
  lemma {:induction false} StoppedRunIsInert(s: Session, ops: seq<Op>)
    requires Valid(s) && !s.listening
    requires forall i :: 0 <= i < |ops| ==> ops[i].Press?
    ensures Run(s, ops) == (s, [])
    decreases |ops|
  {
    if ops != [] {
      StoppedRunIsInert(s, ops[1..]);
    }
  }
}
