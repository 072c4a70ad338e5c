/** The command buffer the inverse FFT records into: integer parameters,
    texture bindings and compute dispatches, kept in the order issued. */
module FftCommands {

  /** A render texture, compared by identity as the engine does. */
  class RenderTexture {
    const width: int
    const height: int

    constructor (w: int, h: int)
      ensures width == w && height == h
    {
      width := w;
      height := h;
    }
  }

  /** The kernels of the FFT compute shader, looked up by name. */
  datatype Kernel =
    | ComputeButterflyTexture
    | HorizontalOperation
    | VerticalOperation
    | CopyToPingPong1
    | PermuteAndScale

  /** The shader's integer parameters. */
  datatype IntParam = Size | LogSize | PingPong | Stage

  /** The shader's texture slots. */
  datatype TextureSlot = ButterflyTexture | PingPong0 | PingPong1 | TimeDomain

  datatype Command =
    | SetInt(param: IntParam, value: int)
    | SetTexture(kernel: Kernel, slot: TextureSlot, texture: RenderTexture)
    | Dispatch(kernel: Kernel, groupsX: int, groupsY: int, groupsZ: int)

  /** Recorded commands; nothing here executes them. */
  class CommandBuffer {
    var commands: seq<Command>

    constructor ()
      ensures commands == []
    {
      commands := [];
    }

    method SetComputeIntParam(param: IntParam, value: int)
      modifies this
      ensures commands == old(commands) + [SetInt(param, value)]
    {
      commands := commands + [SetInt(param, value)];
    }

    method SetComputeTextureParam(kernel: Kernel, slot: TextureSlot, texture: RenderTexture)
      modifies this
      ensures commands == old(commands) + [SetTexture(kernel, slot, texture)]
    {
      commands := commands + [SetTexture(kernel, slot, texture)];
    }

    method DispatchCompute(kernel: Kernel, x: int, y: int, z: int)
      modifies this
      ensures commands == old(commands) + [Dispatch(kernel, x, y, z)]
    {
      commands := commands + [Dispatch(kernel, x, y, z)];
    }
  }

  function Pow2(k: nat): (r: nat)
    ensures r >= 1
  {
    if k == 0 then 1 else 2 * Pow2(k - 1)
  }

  /** `(int)Mathf.Log(size, 2)` for a positive size: the floor of the base-2 logarithm. */
  function Log2Floor(n: int): (r: nat)
    requires n >= 1
    ensures Pow2(r) <= n < 2 * Pow2(r)
  {
    if n == 1 then 0 else 1 + Log2Floor(n / 2)
  }

  /** On a power of two the logarithm is exact. */
  lemma {:induction false} Log2OfPow2(k: nat)
    ensures Log2Floor(Pow2(k)) == k
  {
    if k > 0 {
      Log2OfPow2(k - 1);
      assert Pow2(k) / 2 == Pow2(k - 1);
    }
  }

  /** The three commands of one butterfly stage: parity, stage number, dispatch. */
  function StageCommands(kernel: Kernel, stage: int, parity: int, size: int): seq<Command> {
    [SetInt(PingPong, parity), SetInt(Stage, stage), Dispatch(kernel, size / 8, size / 8, 1)]
  }

  /** The first `n` stages of a pass whose parity starts at `start`; stage `j`
      carries parity `(start + j) % 2`. */
  function Stages(kernel: Kernel, n: nat, start: int, size: int): (r: seq<Command>)
    ensures |r| == 3 * n
  {
    if n == 0 then []
    else Stages(kernel, n - 1, start, size) + StageCommands(kernel, n - 1, (start + n - 1) % 2, size)
  }

  /** What one command contributes to a projection of the buffer. */
  function KernelOf(c: Command): seq<Kernel> {
    if c.Dispatch? then [c.kernel] else []
  }

  function IntOf(p: IntParam): Command -> seq<int> {
    (c: Command) => if c.SetInt? && c.param == p then [c.value] else []
  }

  function TextureOf(slot: TextureSlot): Command -> seq<RenderTexture> {
    (c: Command) => if c.SetTexture? && c.slot == slot then [c.texture] else []
  }

  /** The contributions of the first `n` commands in `cmds`, in order. */
  function CollectUpTo<T>(cmds: seq<Command>, n: nat, f: Command -> seq<T>): seq<T>
    requires n <= |cmds|
  {
    if n == 0 then [] else CollectUpTo(cmds, n - 1, f) + f(cmds[n - 1])
  }

  function Collect<T>(cmds: seq<Command>, f: Command -> seq<T>): seq<T> {
    CollectUpTo(cmds, |cmds|, f)
  }

  lemma {:induction false} CollectPrefix<T>(a: seq<Command>, b: seq<Command>, n: nat, f: Command -> seq<T>)
    requires n <= |a|
    ensures CollectUpTo(a + b, n, f) == CollectUpTo(a, n, f)
  {
    if n > 0 {
      CollectPrefix(a, b, n - 1, f);
    }
  }

  lemma {:induction false} CollectSuffix<T>(a: seq<Command>, b: seq<Command>, k: nat, f: Command -> seq<T>)
    requires k <= |b|
    ensures CollectUpTo(a + b, |a| + k, f) == CollectUpTo(a, |a|, f) + CollectUpTo(b, k, f)
  {
    if k == 0 {
      CollectPrefix(a, b, |a|, f);
    } else {
      CollectSuffix(a, b, k - 1, f);
    }
  }

  /** The kernels of the dispatches in `cmds`, in order. */
  function Dispatched(cmds: seq<Command>): seq<Kernel> {
    Collect(cmds, KernelOf)
  }

  /** The values given to integer parameter `p` in `cmds`, in order. */
  function IntValues(cmds: seq<Command>, p: IntParam): seq<int> {
    Collect(cmds, IntOf(p))
  }

  /** The textures bound to `slot` in `cmds`, in order. */
  function Bound(cmds: seq<Command>, slot: TextureSlot): seq<RenderTexture> {
    Collect(cmds, TextureOf(slot))
  }

  /** Every dispatch in `cmds` uses the given group counts. */
  predicate AllGroups(cmds: seq<Command>, x: int, y: int, z: int) {
    forall i :: 0 <= i < |cmds| && cmds[i].Dispatch? ==>
      cmds[i].groupsX == x && cmds[i].groupsY == y && cmds[i].groupsZ == z
  }

  /** Collecting over two blocks collects over each, in order. */
  lemma CollectAppend<T>(a: seq<Command>, b: seq<Command>, f: Command -> seq<T>)
    ensures Collect(a + b, f) == Collect(a, f) + Collect(b, f)
  {
    CollectSuffix(a, b, |b|, f);
  }

  lemma CollectOfFive<T>(b1: seq<Command>, b2: seq<Command>, b3: seq<Command>, b4: seq<Command>, b5: seq<Command>,
                         f: Command -> seq<T>)
    ensures Collect(b1 + b2 + b3 + b4 + b5, f) ==
      Collect(b1, f) + Collect(b2, f) + Collect(b3, f) + Collect(b4, f) + Collect(b5, f)
  {
    CollectAppend(b1 + b2 + b3 + b4, b5, f);
    CollectAppend(b1 + b2 + b3, b4, f);
    CollectAppend(b1 + b2, b3, f);
    CollectAppend(b1, b2, f);
  }

  lemma CollectOfThree<T>(b1: seq<Command>, b2: seq<Command>, b3: seq<Command>, f: Command -> seq<T>)
    ensures Collect(b1 + b2 + b3, f) == Collect(b1, f) + Collect(b2, f) + Collect(b3, f)
  {
    CollectAppend(b1 + b2, b3, f);
    CollectAppend(b1, b2, f);
  }

  /** Collecting over a short literal block collects each command in turn. */
  lemma CollectThreeCommands<T>(c1: Command, c2: Command, c3: Command, f: Command -> seq<T>)
    ensures Collect([c1, c2, c3], f) == f(c1) + f(c2) + f(c3)
  {
    var s := [c1, c2, c3];
    assert CollectUpTo(s, 1, f) == f(c1);
    assert CollectUpTo(s, 2, f) == f(c1) + f(c2);
  }

  lemma CollectFourCommands<T>(c1: Command, c2: Command, c3: Command, c4: Command, f: Command -> seq<T>)
    ensures Collect([c1, c2, c3, c4], f) == f(c1) + f(c2) + f(c3) + f(c4)
  {
    var s := [c1, c2, c3, c4];
    assert CollectUpTo(s, 1, f) == f(c1);
    assert CollectUpTo(s, 2, f) == f(c1) + f(c2);
    assert CollectUpTo(s, 3, f) == f(c1) + f(c2) + f(c3);
  }

  lemma CollectSixCommands<T>(c1: Command, c2: Command, c3: Command, c4: Command, c5: Command, c6: Command,
                              f: Command -> seq<T>)
    ensures Collect([c1, c2, c3, c4, c5, c6], f) == f(c1) + f(c2) + f(c3) + f(c4) + f(c5) + f(c6)
  {
    var s := [c1, c2, c3, c4, c5, c6];
    assert CollectUpTo(s, 1, f) == f(c1);
    assert CollectUpTo(s, 2, f) == f(c1) + f(c2);
    assert CollectUpTo(s, 3, f) == f(c1) + f(c2) + f(c3);
    assert CollectUpTo(s, 4, f) == f(c1) + f(c2) + f(c3) + f(c4);
    assert CollectUpTo(s, 5, f) == f(c1) + f(c2) + f(c3) + f(c4) + f(c5);
  }

  /** `n` copies of kernel `k`. */
  function Repeat(k: Kernel, n: nat): (r: seq<Kernel>)
    ensures |r| == n && forall i :: 0 <= i < n ==> r[i] == k
  {
    if n == 0 then [] else Repeat(k, n - 1) + [k]
  }

  /** The integers `0 .. n-1`. */
  function Range(n: nat): (r: seq<int>)
    ensures |r| == n && forall i :: 0 <= i < n ==> r[i] == i
  {
    if n == 0 then [] else Range(n - 1) + [n - 1]
  }

  /** The parities `start % 2, (start + 1) % 2, ...`, `n` of them. */
  function Parities(start: int, n: nat): (r: seq<int>)
    ensures |r| == n && forall i :: 0 <= i < n ==> r[i] == (start + i) % 2
  {
    if n == 0 then [] else Parities(start, n - 1) + [(start + n - 1) % 2]
  }

  /** What one stage contributes to each projection. */
  lemma StageProjections(kernel: Kernel, stage: int, parity: int, size: int)
    ensures Dispatched(StageCommands(kernel, stage, parity, size)) == [kernel]
    ensures IntValues(StageCommands(kernel, stage, parity, size), Stage) == [stage]
    ensures IntValues(StageCommands(kernel, stage, parity, size), PingPong) == [parity]
    ensures Bound(StageCommands(kernel, stage, parity, size), PingPong0) == []
    ensures Bound(StageCommands(kernel, stage, parity, size), TimeDomain) == []
  {
    var c1, c2, c3 := SetInt(PingPong, parity), SetInt(Stage, stage), Dispatch(kernel, size / 8, size / 8, 1);
    CollectThreeCommands(c1, c2, c3, KernelOf);
    CollectThreeCommands(c1, c2, c3, IntOf(Stage));
    CollectThreeCommands(c1, c2, c3, IntOf(PingPong));
    CollectThreeCommands(c1, c2, c3, TextureOf(PingPong0));
    CollectThreeCommands(c1, c2, c3, TextureOf(TimeDomain));
  }

  /** The `n`-stage pass is the `n-1`-stage pass followed by stage `n-1`. */
  lemma StagesStep<T>(kernel: Kernel, n: nat, start: int, size: int, f: Command -> seq<T>)
    requires n > 0
    ensures Collect(Stages(kernel, n, start, size), f) ==
      Collect(Stages(kernel, n - 1, start, size), f) + Collect(StageCommands(kernel, n - 1, (start + n - 1) % 2, size), f)
  {
    CollectAppend(Stages(kernel, n - 1, start, size), StageCommands(kernel, n - 1, (start + n - 1) % 2, size), f);
  }

  /** A pass of `n` stages dispatches its kernel exactly `n` times. */
  lemma {:induction false} StagesDispatch(kernel: Kernel, n: nat, start: int, size: int)
    ensures Dispatched(Stages(kernel, n, start, size)) == Repeat(kernel, n)
  {
    if n > 0 {
      StagesDispatch(kernel, n - 1, start, size);
      StagesStep(kernel, n, start, size, KernelOf);
      StageProjections(kernel, n - 1, (start + n - 1) % 2, size);
    }
  }

  /** A pass of `n` stages sets `Stage` to `0 .. n-1` in order. */
  lemma {:induction false} StagesStageValues(kernel: Kernel, n: nat, start: int, size: int)
    ensures IntValues(Stages(kernel, n, start, size), Stage) == Range(n)
  {
    if n > 0 {
      StagesStageValues(kernel, n - 1, start, size);
      StagesStep(kernel, n, start, size, IntOf(Stage));
      StageProjections(kernel, n - 1, (start + n - 1) % 2, size);
    }
  }

  /** A pass of `n` stages sets `PingPong` to alternating parities from `start`. */
  lemma {:induction false} StagesParities(kernel: Kernel, n: nat, start: int, size: int)
    ensures IntValues(Stages(kernel, n, start, size), PingPong) == Parities(start, n)
  {
    if n > 0 {
      StagesParities(kernel, n - 1, start, size);
      StagesStep(kernel, n, start, size, IntOf(PingPong));
      StageProjections(kernel, n - 1, (start + n - 1) % 2, size);
    }
  }

  /** A pass binds no texture as PingPong0 or TimeDomain. */
  lemma {:induction false} StagesBindNothing(kernel: Kernel, n: nat, start: int, size: int)
    ensures Bound(Stages(kernel, n, start, size), PingPong0) == []
    ensures Bound(Stages(kernel, n, start, size), TimeDomain) == []
  {
    if n > 0 {
      StagesBindNothing(kernel, n - 1, start, size);
      StagesStep(kernel, n, start, size, TextureOf(PingPong0));
      StagesStep(kernel, n, start, size, TextureOf(TimeDomain));
      StageProjections(kernel, n - 1, (start + n - 1) % 2, size);
    }
  }

  /** Every dispatch of a pass uses `size/8 x size/8 x 1` groups. */
  lemma {:induction false} StagesGroups(kernel: Kernel, n: nat, start: int, size: int)
    ensures AllGroups(Stages(kernel, n, start, size), size / 8, size / 8, 1)
  {
    if n > 0 {
      StagesGroups(kernel, n - 1, start, size);
      AllGroupsAppend(Stages(kernel, n - 1, start, size), StageCommands(kernel, n - 1, (start + n - 1) % 2, size),
                      size / 8, size / 8, 1);
    }
  }

  /** Parity alternates across two consecutive passes: the second starts where the first ended. */
  lemma ParitiesConcat(n: nat, m: nat)
    ensures Parities(0, n) + Parities(n, m) == Parities(0, n + m)
  {
  }

  /** The butterfly precompute: size and log size first, then the table binding, then one dispatch. */
  function ButterflyCommands(size: int, logSize: int, butterfly: RenderTexture): seq<Command> {
    [SetInt(Size, size), SetInt(LogSize, logSize),
     SetTexture(ComputeButterflyTexture, ButterflyTexture, butterfly),
     Dispatch(ComputeButterflyTexture, logSize, size / 8, 1)]
  }

  /** The precompute sets Size and LogSize once each before its single
      dispatch, which runs `logSize x size/8` groups and comes last. */
  lemma ButterflyOrder(size: int, logSize: int, butterfly: RenderTexture)
    ensures Dispatched(ButterflyCommands(size, logSize, butterfly)) == [ComputeButterflyTexture]
    ensures IntValues(ButterflyCommands(size, logSize, butterfly), Size) == [size]
    ensures IntValues(ButterflyCommands(size, logSize, butterfly), LogSize) == [logSize]
    ensures ButterflyCommands(size, logSize, butterfly)[3] == Dispatch(ComputeButterflyTexture, logSize, size / 8, 1)
  {
    var c1, c2 := SetInt(Size, size), SetInt(LogSize, logSize);
    var c3 := SetTexture(ComputeButterflyTexture, ButterflyTexture, butterfly);
    var c4 := Dispatch(ComputeButterflyTexture, logSize, size / 8, 1);
    CollectFourCommands(c1, c2, c3, c4, KernelOf);
    CollectFourCommands(c1, c2, c3, c4, IntOf(Size));
    CollectFourCommands(c1, c2, c3, c4, IntOf(LogSize));
  }

  /** The three bindings issued before each pass. */
  function PassBindings(kernel: Kernel, butterfly: RenderTexture, pingPong0: RenderTexture, pingPong1: RenderTexture): seq<Command> {
    [SetTexture(kernel, ButterflyTexture, butterfly), SetTexture(kernel, PingPong0, pingPong0), SetTexture(kernel, PingPong1, pingPong1)]
  }

  /** One pass over the spectrum: the bindings, then `n` stages whose parity starts at `start`. */
  function Pass(kernel: Kernel, n: nat, start: int, size: int, butterfly: RenderTexture,
                pingPong0: RenderTexture, pingPong1: RenderTexture): seq<Command>
  {
    PassBindings(kernel, butterfly, pingPong0, pingPong1) + Stages(kernel, n, start, size)
  }

  /** A pass dispatches its kernel `n` times. */
  lemma PassDispatched(kernel: Kernel, n: nat, start: int, size: int, butterfly: RenderTexture,
                        pingPong0: RenderTexture, pingPong1: RenderTexture)
    ensures Dispatched(Pass(kernel, n, start, size, butterfly, pingPong0, pingPong1)) == Repeat(kernel, n)
  {
    var b := PassBindings(kernel, butterfly, pingPong0, pingPong1);
    var s := Stages(kernel, n, start, size);
    var c1, c2, c3 := SetTexture(kernel, ButterflyTexture, butterfly), SetTexture(kernel, PingPong0, pingPong0), SetTexture(kernel, PingPong1, pingPong1);
    CollectAppend(b, s, KernelOf);
    CollectThreeCommands(c1, c2, c3, KernelOf);
    StagesDispatch(kernel, n, start, size);
  }

  /** A pass numbers its stages `0 .. n-1`. */
  lemma PassStageValues(kernel: Kernel, n: nat, start: int, size: int, butterfly: RenderTexture,
                        pingPong0: RenderTexture, pingPong1: RenderTexture)
    ensures IntValues(Pass(kernel, n, start, size, butterfly, pingPong0, pingPong1), Stage) == Range(n)
  {
    var b := PassBindings(kernel, butterfly, pingPong0, pingPong1);
    var s := Stages(kernel, n, start, size);
    var c1, c2, c3 := SetTexture(kernel, ButterflyTexture, butterfly), SetTexture(kernel, PingPong0, pingPong0), SetTexture(kernel, PingPong1, pingPong1);
    CollectAppend(b, s, IntOf(Stage));
    CollectThreeCommands(c1, c2, c3, IntOf(Stage));
    StagesStageValues(kernel, n, start, size);
  }

  /** A pass alternates the parity from `start`. */
  lemma PassParities(kernel: Kernel, n: nat, start: int, size: int, butterfly: RenderTexture,
                        pingPong0: RenderTexture, pingPong1: RenderTexture)
    ensures IntValues(Pass(kernel, n, start, size, butterfly, pingPong0, pingPong1), PingPong) == Parities(start, n)
  {
    var b := PassBindings(kernel, butterfly, pingPong0, pingPong1);
    var s := Stages(kernel, n, start, size);
    var c1, c2, c3 := SetTexture(kernel, ButterflyTexture, butterfly), SetTexture(kernel, PingPong0, pingPong0), SetTexture(kernel, PingPong1, pingPong1);
    CollectAppend(b, s, IntOf(PingPong));
    CollectThreeCommands(c1, c2, c3, IntOf(PingPong));
    StagesParities(kernel, n, start, size);
  }

  /** A pass binds `pingPong0` as PingPong0 once, in its bindings. */
  lemma PassPingPong0(kernel: Kernel, n: nat, start: int, size: int, butterfly: RenderTexture,
                        pingPong0: RenderTexture, pingPong1: RenderTexture)
    ensures Bound(Pass(kernel, n, start, size, butterfly, pingPong0, pingPong1), PingPong0) == [pingPong0]
  {
    var b := PassBindings(kernel, butterfly, pingPong0, pingPong1);
    var s := Stages(kernel, n, start, size);
    var c1, c2, c3 := SetTexture(kernel, ButterflyTexture, butterfly), SetTexture(kernel, PingPong0, pingPong0), SetTexture(kernel, PingPong1, pingPong1);
    CollectAppend(b, s, TextureOf(PingPong0));
    CollectThreeCommands(c1, c2, c3, TextureOf(PingPong0));
    StagesBindNothing(kernel, n, start, size);
  }

  /** A pass binds nothing as TimeDomain. */
  lemma PassTimeDomain(kernel: Kernel, n: nat, start: int, size: int, butterfly: RenderTexture,
                        pingPong0: RenderTexture, pingPong1: RenderTexture)
    ensures Bound(Pass(kernel, n, start, size, butterfly, pingPong0, pingPong1), TimeDomain) == []
  {
    var b := PassBindings(kernel, butterfly, pingPong0, pingPong1);
    var s := Stages(kernel, n, start, size);
    var c1, c2, c3 := SetTexture(kernel, ButterflyTexture, butterfly), SetTexture(kernel, PingPong0, pingPong0), SetTexture(kernel, PingPong1, pingPong1);
    CollectAppend(b, s, TextureOf(TimeDomain));
    CollectThreeCommands(c1, c2, c3, TextureOf(TimeDomain));
    StagesBindNothing(kernel, n, start, size);
  }

  /** Every dispatch of a pass uses `size/8 x size/8 x 1` groups. */
  lemma PassGroups(kernel: Kernel, n: nat, start: int, size: int, butterfly: RenderTexture,
                        pingPong0: RenderTexture, pingPong1: RenderTexture)
    ensures AllGroups(Pass(kernel, n, start, size, butterfly, pingPong0, pingPong1), size / 8, size / 8, 1)
  {
    StagesGroups(kernel, n, start, size);
    AllGroupsAppend(PassBindings(kernel, butterfly, pingPong0, pingPong1), Stages(kernel, n, start, size), size / 8, size / 8, 1);
  }

  lemma AllGroupsAppend(a: seq<Command>, b: seq<Command>, x: int, y: int, z: int)
    requires AllGroups(a, x, y, z) && AllGroups(b, x, y, z)
    ensures AllGroups(a + b, x, y, z)
  {
    forall i | 0 <= i < |a + b| && (a + b)[i].Dispatch?
      ensures (a + b)[i].groupsX == x && (a + b)[i].groupsY == y && (a + b)[i].groupsZ == z
    {
      if i >= |a| {
        assert (a + b)[i] == b[i - |a|];
      }
    }
  }
}
