/** The CPU copy of the three displacement maps: a request reads all three
    back from the GPU at once, each completion loads its own copy and clears
    its own flag, and the "displacements received" event fires when no read is
    outstanding. Read-back completions are explicit sequential events. */
module CpuReadback {

  /** Raw texture bytes as read back from the GPU. */
  type Bytes = seq<int>

  datatype DisplacementMap = Map1 | Map2 | Map3

  /** The payload of one "displacements received" event: the three cached textures. */
  datatype Displacements = Displacements(map1: Bytes, map2: Bytes, map3: Bytes)

  /** The component's flags and cached textures, together with the read-backs
      issued to the engine, those it has not yet called back, and the events fired. */
  datatype ReadbackState = ReadbackState(
    requested1: bool, requested2: bool, requested3: bool,
    texture1: Bytes, texture2: Bytes, texture3: Bytes,
    issued: seq<DisplacementMap>,
    inFlight: multiset<DisplacementMap>,
    received: seq<Displacements>)

  function Requested(s: ReadbackState, m: DisplacementMap): bool {
    match m
    case Map1 => s.requested1
    case Map2 => s.requested2
    case Map3 => s.requested3
  }

  function Texture(s: ReadbackState, m: DisplacementMap): Bytes {
    match m
    case Map1 => s.texture1
    case Map2 => s.texture2
    case Map3 => s.texture3
  }

  predicate AnyRequested(s: ReadbackState) {
    s.requested1 || s.requested2 || s.requested3
  }

  /** Each map has at most one read-back outstanding, and only while its flag is set. */
  predicate Valid(s: ReadbackState) {
    forall m :: s.inFlight[m] <= 1 && (s.inFlight[m] > 0 ==> Requested(s, m))
  }

  /** `RequestWaterHeight`: nothing while a flag is set; otherwise set all three
      flags and issue one read-back per map. */
  function Request(s: ReadbackState): ReadbackState {
    if AnyRequested(s) then s
    else s.(requested1 := true, requested2 := true, requested3 := true,
            issued := s.issued + [Map1, Map2, Map3],
            inFlight := s.inFlight + multiset{Map1, Map2, Map3})
  }

  /** `FireDisplacementEvent`: the event fires only when all three flags are clear. */
  function Fire(s: ReadbackState): ReadbackState {
    if AnyRequested(s) then s
    else s.(received := s.received + [Displacements(s.texture1, s.texture2, s.texture3)])
  }

  /** Loads the data into the map's cached texture and clears the map's flag. */
  function Load(s: ReadbackState, m: DisplacementMap, data: Bytes): ReadbackState {
    match m
    case Map1 => s.(texture1 := data, requested1 := false)
    case Map2 => s.(texture2 := data, requested2 := false)
    case Map3 => s.(texture3 := data, requested3 := false)
  }

  /** `OnCompleteReadback1/2/3`: the engine hands back the request for map `m`;
      on error the component returns at once, otherwise it loads, clears and
      tries to fire. */
  function Complete(s: ReadbackState, m: DisplacementMap, hasError: bool, data: Bytes): ReadbackState {
    var delivered := s.(inFlight := s.inFlight - multiset{m});
    if hasError then delivered else Fire(Load(delivered, m, data))
  }

  /** What can happen between two frames: an `Update`, or the engine calling back one request. */
  datatype Occurrence = Tick | Callback(target: DisplacementMap, hasError: bool, data: Bytes)

  /** One occurrence as `Run` applies it. */
  function Occur(s: ReadbackState, o: Occurrence): ReadbackState {
    match o
    case Tick => Request(s)
    case Callback(m, e, d) => if s.inFlight[m] > 0 then Complete(s, m, e, d) else s
  }

  /** The state after a sequence of occurrences; the engine only calls back requests it holds. */
  function Run(s: ReadbackState, trace: seq<Occurrence>): ReadbackState
    decreases |trace|
  {
    if |trace| == 0 then s
    else Run(Occur(s, trace[0]), trace[1..])
  }

  /** While any read is outstanding a request changes nothing. */
  lemma RequestSuppressed(s: ReadbackState)
    requires AnyRequested(s)
    ensures Request(s) == s
  {
  }

  /** From an idle valid state a request sets all flags and issues exactly one
      read-back per map, leaving exactly one of each outstanding. */
  lemma RequestIssuesOnePerMap(s: ReadbackState)
    requires Valid(s) && !AnyRequested(s)
    ensures Request(s).issued == s.issued + [Map1, Map2, Map3]
    ensures forall m :: Requested(Request(s), m) && Request(s).inFlight[m] == 1
    ensures Request(s).received == s.received
    ensures forall m :: Texture(Request(s), m) == Texture(s, m)
  {
    forall m
      ensures s.inFlight[m] == 0 && multiset{Map1, Map2, Map3}[m] == 1
    {
      assert !Requested(s, m);
      match m
      case Map1 =>
      case Map2 =>
      case Map3 =>
    }
  }

  lemma RequestPreservesValid(s: ReadbackState)
    requires Valid(s)
    ensures Valid(Request(s))
  {
    if !AnyRequested(s) {
      forall m
        ensures s.inFlight[m] == 0
      {
        assert !Requested(s, m);
      }
    }
  }

  lemma CompletePreservesValid(s: ReadbackState, m: DisplacementMap, hasError: bool, data: Bytes)
    requires Valid(s) && s.inFlight[m] > 0
    ensures Valid(Complete(s, m, hasError, data))
  {
    var r := Complete(s, m, hasError, data);
    forall m' ensures r.inFlight[m'] <= 1 && (r.inFlight[m'] > 0 ==> Requested(r, m'))
    {
      if m' != m {
        assert r.inFlight[m'] == s.inFlight[m'];
      }
    }
  }

  /** A successful completion clears its own flag and no other, and stores its
      data in its own cached texture and no other. */
  lemma SuccessClearsOnlyOwnFlag(s: ReadbackState, m: DisplacementMap, data: Bytes)
    ensures forall m' :: Requested(Complete(s, m, false, data), m') == (m' != m && Requested(s, m'))
    ensures Texture(Complete(s, m, false, data), m) == data
    ensures forall m' :: m' != m ==> Texture(Complete(s, m, false, data), m') == Texture(s, m')
    ensures Complete(s, m, false, data).issued == s.issued
  {
  }

  /** A failed completion returns before clearing its flag or loading data: the
      flags, the cached textures and the events are as before. */
  lemma FailureKeepsFlagAndTexture(s: ReadbackState, m: DisplacementMap, data: Bytes)
    ensures forall m' :: Requested(Complete(s, m, true, data), m') == Requested(s, m')
    ensures forall m' :: Texture(Complete(s, m, true, data), m') == Texture(s, m')
    ensures Complete(s, m, true, data).received == s.received
    ensures Complete(s, m, true, data).issued == s.issued
  {
  }

  /** A completion fires the event exactly when it leaves every flag clear, and
      then the event carries the three cached textures. */
  lemma FiresIffAllClear(s: ReadbackState, m: DisplacementMap, hasError: bool, data: Bytes)
    ensures var r := Complete(s, m, hasError, data);
      (|r.received| == |s.received| + 1 <==> !hasError && !AnyRequested(r)) &&
      (|r.received| == |s.received| || |r.received| == |s.received| + 1) &&
      r.received[..|s.received|] == s.received &&
      (|r.received| == |s.received| + 1 ==>
         r.received[|s.received|] == Displacements(r.texture1, r.texture2, r.texture3))
  {
    var r := Complete(s, m, hasError, data);
    if hasError {
      assert r.received == s.received;
    } else {
      var loaded := Load(s.(inFlight := s.inFlight - multiset{m}), m, data);
      assert loaded.received == s.received;
      assert AnyRequested(r) == AnyRequested(loaded);
    }
  }

  lemma RequestedIsAny(s: ReadbackState, m: DisplacementMap)
    requires Requested(s, m)
    ensures AnyRequested(s)
  {
  }

  /** Three distinct maps are all the maps. */
  lemma DistinctCoverAll(a: DisplacementMap, b: DisplacementMap, c: DisplacementMap, m: DisplacementMap)
    requires a != b && b != c && a != c
    ensures m == a || m == b || m == c
  {
  }

  /** A successful completion that leaves another map's flag set does not fire. */
  lemma NoFireWhileOthersPending(s: ReadbackState, m: DisplacementMap, other: DisplacementMap, data: Bytes)
    requires other != m && Requested(s, other)
    ensures Complete(s, m, false, data).received == s.received
    ensures Requested(Complete(s, m, false, data), other)
  {
    SuccessClearsOnlyOwnFlag(s, m, data);
    RequestedIsAny(Complete(s, m, false, data), other);
    FiresIffAllClear(s, m, false, data);
  }

  /** A fully successful batch, called back in any order, fires the event
      exactly once, on the last completion, with the three new textures. */
  lemma FullBatchFiresOnce(s: ReadbackState, a: DisplacementMap, b: DisplacementMap, c: DisplacementMap,
                           da: Bytes, db: Bytes, dc: Bytes)
    requires Valid(s) && !AnyRequested(s)
    requires a != b && b != c && a != c
    ensures var s4 := Complete(Complete(Complete(Request(s), a, false, da), b, false, db), c, false, dc);
      Complete(Request(s), a, false, da).received == s.received &&
      Complete(Complete(Request(s), a, false, da), b, false, db).received == s.received &&
      s4.received == s.received + [Displacements(s4.texture1, s4.texture2, s4.texture3)] &&
      Texture(s4, a) == da && Texture(s4, b) == db && Texture(s4, c) == dc
  {
    RequestIssuesOnePerMap(s);
    var s1 := Request(s);
    var s2 := Complete(s1, a, false, da);
    var s3 := Complete(s2, b, false, db);
    var s4 := Complete(s3, c, false, dc);
    NoFireWhileOthersPending(s1, a, c, da);
    NoFireWhileOthersPending(s2, b, c, db);
    SuccessClearsOnlyOwnFlag(s1, a, da);
    SuccessClearsOnlyOwnFlag(s2, b, db);
    SuccessClearsOnlyOwnFlag(s3, c, dc);
    forall m
      ensures !Requested(s4, m)
    {
      DistinctCoverAll(a, b, c, m);
    }
    assert !AnyRequested(s4) by {
      assert !Requested(s4, Map1) && !Requested(s4, Map2) && !Requested(s4, Map3);
    }
    FiresIffAllClear(s3, c, false, dc);
  }

  /** The state a failed completion leaves behind: its flag set with no read
      of that map outstanding. */
  predicate Stuck(s: ReadbackState, m: DisplacementMap) {
    Requested(s, m) && s.inFlight[m] == 0
  }

  /** A failed completion leaves the component stuck on its map. */
  lemma FailureSticks(s: ReadbackState, m: DisplacementMap, data: Bytes)
    requires Valid(s) && s.inFlight[m] > 0
    ensures Stuck(Complete(s, m, true, data), m)
  {
  }

  /** One occurrence cannot unstick: the flag blocks requests and the event. */
  lemma StuckStep(s: ReadbackState, m: DisplacementMap, o: Occurrence)
    requires Stuck(s, m)
    ensures Stuck(Occur(s, o), m)
    ensures Occur(s, o).issued == s.issued && Occur(s, o).received == s.received
  {
    RequestedIsAny(s, m);
    match o
    case Tick =>
    case Callback(m', e, d) =>
      if s.inFlight[m'] > 0 && !e {
        SuccessClearsOnlyOwnFlag(s, m', d);
        RequestedIsAny(Complete(s, m', e, d), m);
        FiresIffAllClear(s, m', e, d);
      }
  }

  /** Once stuck, whatever happens next, the flag stays set: no read-back is
      ever issued again and the event never fires again. */
  lemma {:induction false} StuckForever(s: ReadbackState, m: DisplacementMap, trace: seq<Occurrence>)
    requires Stuck(s, m)
    ensures Stuck(Run(s, trace), m)
    ensures Run(s, trace).issued == s.issued
    ensures Run(s, trace).received == s.received
    decreases |trace|
  {
    if |trace| > 0 {
      StuckStep(s, m, trace[0]);
      StuckForever(Occur(s, trace[0]), m, trace[1..]);
    }
  }

  /** The component, with the engine's outstanding read-backs and the event's
      subscribers' view recorded beside its own fields. */
  class OceanCpuData {
    var requested1: bool
    var requested2: bool
    var requested3: bool
    var texture1: Bytes
    var texture2: Bytes
    var texture3: Bytes
    var issued: seq<DisplacementMap>
    var inFlight: multiset<DisplacementMap>
    var received: seq<Displacements>

    function State(): ReadbackState
      reads this
    {
      ReadbackState(requested1, requested2, requested3, texture1, texture2, texture3, issued, inFlight, received)
    }

    /** `Start`: the three cached textures begin with the given contents; nothing is requested. */
    constructor (t1: Bytes, t2: Bytes, t3: Bytes)
      ensures State() == ReadbackState(false, false, false, t1, t2, t3, [], multiset{}, [])
      ensures Valid(State())
    {
      requested1, requested2, requested3 := false, false, false;
      texture1, texture2, texture3 := t1, t2, t3;
      issued, inFlight, received := [], multiset{}, [];
    }

    /** Every frame attempts exactly one request. */
    method Update()
      modifies this
      ensures State() == Request(old(State()))
    {
      RequestWaterHeight();
    }

    method RequestWaterHeight()
      modifies this
      ensures State() == Request(old(State()))
    {
      if requested1 || requested2 || requested3 {
        return;
      }
      requested1 := true;
      requested2 := true;
      requested3 := true;
      issued := issued + [Map1, Map2, Map3];
      inFlight := inFlight + multiset{Map1, Map2, Map3};
    }

    method OnCompleteReadback1(hasError: bool, data: Bytes)
      requires inFlight[Map1] > 0
      modifies this
      ensures State() == Complete(old(State()), Map1, hasError, data)
    {
      inFlight := inFlight - multiset{Map1};
      if hasError {
        return;
      }
      texture1 := data;
      requested1 := false;
      FireDisplacementEvent();
    }

    method OnCompleteReadback2(hasError: bool, data: Bytes)
      requires inFlight[Map2] > 0
      modifies this
      ensures State() == Complete(old(State()), Map2, hasError, data)
    {
      inFlight := inFlight - multiset{Map2};
      if hasError {
        return;
      }
      texture2 := data;
      requested2 := false;
      FireDisplacementEvent();
    }

    method OnCompleteReadback3(hasError: bool, data: Bytes)
      requires inFlight[Map3] > 0
      modifies this
      ensures State() == Complete(old(State()), Map3, hasError, data)
    {
      inFlight := inFlight - multiset{Map3};
      if hasError {
        return;
      }
      texture3 := data;
      requested3 := false;
      FireDisplacementEvent();
    }

    method FireDisplacementEvent()
      modifies this
      ensures State() == Fire(old(State()))
    {
      if requested1 || requested2 || requested3 {
        return;
      }
      received := received + [Displacements(texture1, texture2, texture3)];
    }
  }
}
