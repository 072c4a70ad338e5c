/** The in-place/out-of-place inverse FFT driver: it precomputes the butterfly
    table once, then records a horizontal pass, a vertical pass, a copy and a
    permute-and-scale into the command buffer for every transform. */
module FftDispatch {
  import opened FftCommands
  import UnityMath

  /** The copy-in issued for an out-of-place call: `input` is copied to `output`. */
  function CopyIn(size: int, input: RenderTexture, output: RenderTexture?): seq<Command> {
    if output == null then []
    else [SetTexture(CopyToPingPong1, PingPong0, input), SetTexture(CopyToPingPong1, PingPong1, output),
          Dispatch(CopyToPingPong1, size / 8, size / 8, 1)]
  }

  /** The copy of the working texture to the ping-pong texture. */
  function CopyBack(size: int, pingPong0: RenderTexture, pingPong1: RenderTexture): seq<Command> {
    [SetTexture(CopyToPingPong1, PingPong0, pingPong0), SetTexture(CopyToPingPong1, PingPong1, pingPong1),
     Dispatch(CopyToPingPong1, size / 8, size / 8, 1)]
  }

  /** The final permute-and-scale. */
  function Permute(size: int, pingPong0: RenderTexture, pingPong1: RenderTexture): seq<Command> {
    [SetInt(Size, size),
     SetTexture(PermuteAndScale, PingPong0, pingPong0), SetTexture(PermuteAndScale, PingPong1, pingPong1),
     Dispatch(PermuteAndScale, size / 8, size / 8, 1)]
  }

  /** The texture every pass works on: `output` when given, `input` otherwise. */
  function WorkTexture(input: RenderTexture, output: RenderTexture?): RenderTexture {
    if output == null then input else output
  }

  /** Everything one `DoIFFT` records. */
  function IfftCommands(size: int, logSize: nat, butterfly: RenderTexture, pingPong1: RenderTexture,
                        input: RenderTexture, output: RenderTexture?): seq<Command>
  {
    var work := WorkTexture(input, output);
    CopyIn(size, input, output)
      + Pass(HorizontalOperation, logSize, 0, size, butterfly, work, pingPong1)
      + Pass(VerticalOperation, logSize, logSize, size, butterfly, work, pingPong1)
      + CopyBack(size, work, pingPong1)
      + Permute(size, work, pingPong1)
  }

  /** A transform collects as its five blocks do, one after the other. */
  lemma IfftBlocks<T>(size: int, logSize: nat, butterfly: RenderTexture, pingPong1: RenderTexture,
                        input: RenderTexture, output: RenderTexture?, f: Command -> seq<T>)
    ensures var w := WorkTexture(input, output);
      Collect(IfftCommands(size, logSize, butterfly, pingPong1, input, output), f) ==
        Collect(CopyIn(size, input, output), f)
        + Collect(Pass(HorizontalOperation, logSize, 0, size, butterfly, w, pingPong1), f)
        + Collect(Pass(VerticalOperation, logSize, logSize, size, butterfly, w, pingPong1), f)
        + Collect(CopyBack(size, w, pingPong1), f)
        + Collect(Permute(size, w, pingPong1), f)
  {
    var w := WorkTexture(input, output);
    CollectOfFive(CopyIn(size, input, output),
                  Pass(HorizontalOperation, logSize, 0, size, butterfly, w, pingPong1),
                  Pass(VerticalOperation, logSize, logSize, size, butterfly, w, pingPong1),
                  CopyBack(size, w, pingPong1), Permute(size, w, pingPong1), f);
  }

  lemma CopyInCollect<T>(size: int, input: RenderTexture, output: RenderTexture?, f: Command -> seq<T>)
    ensures output == null ==> Collect(CopyIn(size, input, output), f) == []
    ensures output != null ==>
      Collect(CopyIn(size, input, output), f) ==
        f(SetTexture(CopyToPingPong1, PingPong0, input)) + f(SetTexture(CopyToPingPong1, PingPong1, output))
        + f(Dispatch(CopyToPingPong1, size / 8, size / 8, 1))
  {
    if output != null {
      CollectThreeCommands(SetTexture(CopyToPingPong1, PingPong0, input), SetTexture(CopyToPingPong1, PingPong1, output),
                           Dispatch(CopyToPingPong1, size / 8, size / 8, 1), f);
    }
  }

  /** The dispatches of one transform: the copy-in when out of place, `logSize`
      horizontal stages, `logSize` vertical stages, then the copy and the
      permute-and-scale, last. */
  lemma IfftDispatchOrder(size: int, logSize: nat, butterfly: RenderTexture, pingPong1: RenderTexture,
                        input: RenderTexture, output: RenderTexture?)
    ensures Dispatched(IfftCommands(size, logSize, butterfly, pingPong1, input, output)) ==
      (if output == null then [] else [CopyToPingPong1])
      + Repeat(HorizontalOperation, logSize) + Repeat(VerticalOperation, logSize)
      + [CopyToPingPong1] + [PermuteAndScale]
  {
    IfftBlocks(size, logSize, butterfly, pingPong1, input, output, KernelOf);
    IfftDispatchParts(size, logSize, butterfly, pingPong1, input, output);
  }

  /** The kernels each block of a transform dispatches. */
  lemma IfftDispatchParts(size: int, logSize: nat, butterfly: RenderTexture, pingPong1: RenderTexture,
                        input: RenderTexture, output: RenderTexture?)
    ensures Collect(CopyIn(size, input, output), KernelOf) == (if output == null then [] else [CopyToPingPong1])
    ensures Collect(Pass(HorizontalOperation, logSize, 0, size, butterfly, WorkTexture(input, output), pingPong1), KernelOf) == Repeat(HorizontalOperation, logSize)
    ensures Collect(Pass(VerticalOperation, logSize, logSize, size, butterfly, WorkTexture(input, output), pingPong1), KernelOf) == Repeat(VerticalOperation, logSize)
    ensures Collect(CopyBack(size, WorkTexture(input, output), pingPong1), KernelOf) == [CopyToPingPong1]
    ensures Collect(Permute(size, WorkTexture(input, output), pingPong1), KernelOf) == [PermuteAndScale]
  {
    var w := WorkTexture(input, output);
    CopyInCollect(size, input, output, KernelOf);
    PassDispatched(HorizontalOperation, logSize, 0, size, butterfly, w, pingPong1);
    PassDispatched(VerticalOperation, logSize, logSize, size, butterfly, w, pingPong1);
    CollectThreeCommands(SetTexture(CopyToPingPong1, PingPong0, w), SetTexture(CopyToPingPong1, PingPong1, pingPong1),
                         Dispatch(CopyToPingPong1, size / 8, size / 8, 1), KernelOf);
    CollectFourCommands(SetInt(Size, size), SetTexture(PermuteAndScale, PingPong0, w),
                        SetTexture(PermuteAndScale, PingPong1, pingPong1), Dispatch(PermuteAndScale, size / 8, size / 8, 1), KernelOf);
  }

  /** A projection on which the copy-in, copy-back and permute blocks record
      nothing sees only the two passes, horizontal then vertical. */
  lemma PassesAlone<T>(size: int, logSize: nat, butterfly: RenderTexture, pingPong1: RenderTexture,
                       input: RenderTexture, output: RenderTexture?, f: Command -> seq<T>)
    requires Collect(CopyIn(size, input, output), f) == []
    requires Collect(CopyBack(size, WorkTexture(input, output), pingPong1), f) == []
    requires Collect(Permute(size, WorkTexture(input, output), pingPong1), f) == []
    ensures var w := WorkTexture(input, output);
      Collect(IfftCommands(size, logSize, butterfly, pingPong1, input, output), f) ==
        Collect(Pass(HorizontalOperation, logSize, 0, size, butterfly, w, pingPong1), f)
        + Collect(Pass(VerticalOperation, logSize, logSize, size, butterfly, w, pingPong1), f)
  {
    IfftBlocks(size, logSize, butterfly, pingPong1, input, output, f);
    var w := WorkTexture(input, output);
    var h := Collect(Pass(HorizontalOperation, logSize, 0, size, butterfly, w, pingPong1), f);
    var v := Collect(Pass(VerticalOperation, logSize, logSize, size, butterfly, w, pingPong1), f);
    assert [] + h + v + [] + [] == h + v;
  }

  /** The stage numbers run `0 .. logSize-1` for the horizontal pass and again for the vertical pass. */
  lemma IfftStageNumbers(size: int, logSize: nat, butterfly: RenderTexture, pingPong1: RenderTexture,
                        input: RenderTexture, output: RenderTexture?)
    ensures IntValues(IfftCommands(size, logSize, butterfly, pingPong1, input, output), Stage) == Range(logSize) + Range(logSize)
  {
    IfftStageParts(size, logSize, butterfly, pingPong1, input, output);
    PassesAlone(size, logSize, butterfly, pingPong1, input, output, IntOf(Stage));
  }

  /** The stage numbers each block of a transform sets. */
  lemma IfftStageParts(size: int, logSize: nat, butterfly: RenderTexture, pingPong1: RenderTexture,
                        input: RenderTexture, output: RenderTexture?)
    ensures Collect(CopyIn(size, input, output), IntOf(Stage)) == []
    ensures Collect(Pass(HorizontalOperation, logSize, 0, size, butterfly, WorkTexture(input, output), pingPong1), IntOf(Stage)) == Range(logSize)
    ensures Collect(Pass(VerticalOperation, logSize, logSize, size, butterfly, WorkTexture(input, output), pingPong1), IntOf(Stage)) == Range(logSize)
    ensures Collect(CopyBack(size, WorkTexture(input, output), pingPong1), IntOf(Stage)) == []
    ensures Collect(Permute(size, WorkTexture(input, output), pingPong1), IntOf(Stage)) == []
  {
    var w := WorkTexture(input, output);
    CopyInCollect(size, input, output, IntOf(Stage));
    PassStageValues(HorizontalOperation, logSize, 0, size, butterfly, w, pingPong1);
    PassStageValues(VerticalOperation, logSize, logSize, size, butterfly, w, pingPong1);
    CollectThreeCommands(SetTexture(CopyToPingPong1, PingPong0, w), SetTexture(CopyToPingPong1, PingPong1, pingPong1),
                         Dispatch(CopyToPingPong1, size / 8, size / 8, 1), IntOf(Stage));
    CollectFourCommands(SetInt(Size, size), SetTexture(PermuteAndScale, PingPong0, w),
                        SetTexture(PermuteAndScale, PingPong1, pingPong1), Dispatch(PermuteAndScale, size / 8, size / 8, 1), IntOf(Stage));
  }

  /** The ping-pong parity alternates `0, 1, 0, ...` across all `2 * logSize` stages,
      the vertical pass continuing where the horizontal one stopped. */
  lemma IfftParities(size: int, logSize: nat, butterfly: RenderTexture, pingPong1: RenderTexture,
                        input: RenderTexture, output: RenderTexture?)
    ensures IntValues(IfftCommands(size, logSize, butterfly, pingPong1, input, output), PingPong) == Parities(0, 2 * logSize)
  {
    IfftParityParts(size, logSize, butterfly, pingPong1, input, output);
    PassesAlone(size, logSize, butterfly, pingPong1, input, output, IntOf(PingPong));
    ParitiesConcat(logSize, logSize);
  }

  /** The parities each block of a transform sets. */
  lemma IfftParityParts(size: int, logSize: nat, butterfly: RenderTexture, pingPong1: RenderTexture,
                        input: RenderTexture, output: RenderTexture?)
    ensures Collect(CopyIn(size, input, output), IntOf(PingPong)) == []
    ensures Collect(Pass(HorizontalOperation, logSize, 0, size, butterfly, WorkTexture(input, output), pingPong1), IntOf(PingPong)) == Parities(0, logSize)
    ensures Collect(Pass(VerticalOperation, logSize, logSize, size, butterfly, WorkTexture(input, output), pingPong1), IntOf(PingPong)) == Parities(logSize, logSize)
    ensures Collect(CopyBack(size, WorkTexture(input, output), pingPong1), IntOf(PingPong)) == []
    ensures Collect(Permute(size, WorkTexture(input, output), pingPong1), IntOf(PingPong)) == []
  {
    var w := WorkTexture(input, output);
    CopyInCollect(size, input, output, IntOf(PingPong));
    PassParities(HorizontalOperation, logSize, 0, size, butterfly, w, pingPong1);
    PassParities(VerticalOperation, logSize, logSize, size, butterfly, w, pingPong1);
    CollectThreeCommands(SetTexture(CopyToPingPong1, PingPong0, w), SetTexture(CopyToPingPong1, PingPong1, pingPong1),
                         Dispatch(CopyToPingPong1, size / 8, size / 8, 1), IntOf(PingPong));
    CollectFourCommands(SetInt(Size, size), SetTexture(PermuteAndScale, PingPong0, w),
                        SetTexture(PermuteAndScale, PingPong1, pingPong1), Dispatch(PermuteAndScale, size / 8, size / 8, 1), IntOf(PingPong));
  }

  /** `input` is bound as PingPong0 only by the copy-in; every pass, the copy
      and the permute bind the working texture, which is `output` when given. */
  lemma IfftPingPong0(size: int, logSize: nat, butterfly: RenderTexture, pingPong1: RenderTexture,
                        input: RenderTexture, output: RenderTexture?)
    ensures var w := WorkTexture(input, output);
      Bound(IfftCommands(size, logSize, butterfly, pingPong1, input, output), PingPong0) ==
        (if output == null then [] else [input]) + [w] + [w] + [w] + [w]
  {
    IfftBlocks(size, logSize, butterfly, pingPong1, input, output, TextureOf(PingPong0));
    IfftPingPong0Parts(size, logSize, butterfly, pingPong1, input, output);
  }

  /** The textures each block of a transform binds as PingPong0. */
  lemma IfftPingPong0Parts(size: int, logSize: nat, butterfly: RenderTexture, pingPong1: RenderTexture,
                        input: RenderTexture, output: RenderTexture?)
    ensures Collect(CopyIn(size, input, output), TextureOf(PingPong0)) == (if output == null then [] else [input])
    ensures Collect(Pass(HorizontalOperation, logSize, 0, size, butterfly, WorkTexture(input, output), pingPong1), TextureOf(PingPong0)) == [WorkTexture(input, output)]
    ensures Collect(Pass(VerticalOperation, logSize, logSize, size, butterfly, WorkTexture(input, output), pingPong1), TextureOf(PingPong0)) == [WorkTexture(input, output)]
    ensures Collect(CopyBack(size, WorkTexture(input, output), pingPong1), TextureOf(PingPong0)) == [WorkTexture(input, output)]
    ensures Collect(Permute(size, WorkTexture(input, output), pingPong1), TextureOf(PingPong0)) == [WorkTexture(input, output)]
  {
    var w := WorkTexture(input, output);
    CopyInCollect(size, input, output, TextureOf(PingPong0));
    PassPingPong0(HorizontalOperation, logSize, 0, size, butterfly, w, pingPong1);
    PassPingPong0(VerticalOperation, logSize, logSize, size, butterfly, w, pingPong1);
    CollectThreeCommands(SetTexture(CopyToPingPong1, PingPong0, w), SetTexture(CopyToPingPong1, PingPong1, pingPong1),
                         Dispatch(CopyToPingPong1, size / 8, size / 8, 1), TextureOf(PingPong0));
    CollectFourCommands(SetInt(Size, size), SetTexture(PermuteAndScale, PingPong0, w),
                        SetTexture(PermuteAndScale, PingPong1, pingPong1), Dispatch(PermuteAndScale, size / 8, size / 8, 1), TextureOf(PingPong0));
  }

  /** Every dispatch of a transform uses `size/8 x size/8 x 1` thread groups. */
  lemma IfftGroups(size: int, logSize: nat, butterfly: RenderTexture, pingPong1: RenderTexture,
                        input: RenderTexture, output: RenderTexture?)
    ensures AllGroups(IfftCommands(size, logSize, butterfly, pingPong1, input, output), size / 8, size / 8, 1)
  {
    var w := WorkTexture(input, output);
    var b1 := CopyIn(size, input, output);
    var b2 := Pass(HorizontalOperation, logSize, 0, size, butterfly, w, pingPong1);
    var b3 := Pass(VerticalOperation, logSize, logSize, size, butterfly, w, pingPong1);
    var b4 := CopyBack(size, w, pingPong1);
    var b5 := Permute(size, w, pingPong1);
    PassGroups(HorizontalOperation, logSize, 0, size, butterfly, w, pingPong1);
    PassGroups(VerticalOperation, logSize, logSize, size, butterfly, w, pingPong1);
    AllGroupsAppend(b1, b2, size / 8, size / 8, 1);
    AllGroupsAppend(b1 + b2, b3, size / 8, size / 8, 1);
    AllGroupsAppend(b1 + b2 + b3, b4, size / 8, size / 8, 1);
    AllGroupsAppend(b1 + b2 + b3 + b4, b5, size / 8, size / 8, 1);
  }

  class ComputeFFT {
    const commandBuffer: CommandBuffer
    const butterflyTexture: RenderTexture
    const pingPong1: RenderTexture
    const size: int
    const logSize: nat

    /** Creates the textures and records the butterfly precompute, once. */
    constructor (size: int, commandBuffer: CommandBuffer)
      requires size >= 1
      modifies commandBuffer
      ensures this.size == size && logSize == Log2Floor(size) && this.commandBuffer == commandBuffer
      ensures butterflyTexture.width == logSize && butterflyTexture.height == size
      ensures pingPong1.width == size && pingPong1.height == size
      ensures fresh(butterflyTexture) && fresh(pingPong1)
      ensures commandBuffer.commands == old(commandBuffer.commands) + ButterflyCommands(size, logSize, butterflyTexture)
    {
      this.size := size;
      this.commandBuffer := commandBuffer;
      var log := Log2Floor(size);
      logSize := log;
      butterflyTexture := new RenderTexture(log, size);
      pingPong1 := new RenderTexture(size, size);
      new;
      ComputeButerflyTexture();
    }

    method ComputeButerflyTexture()
      modifies commandBuffer
      ensures commandBuffer.commands == old(commandBuffer.commands) + ButterflyCommands(size, logSize, butterflyTexture)
    {
      commandBuffer.SetComputeIntParam(Size, size);
      commandBuffer.SetComputeIntParam(LogSize, logSize);
      commandBuffer.SetComputeTextureParam(ComputeButterflyTexture, ButterflyTexture, butterflyTexture);
      commandBuffer.DispatchCompute(ComputeButterflyTexture, logSize, size / 8, 1);
    }

    /** One pass: `logSize` stages, each setting the parity and the stage
        number and dispatching `kernel`, with the parity toggled after each. */
    method RecordStages(kernel: Kernel, pingPong: int, ghost start: int) returns (next: int)
      requires pingPong == start % 2
      modifies commandBuffer
      ensures commandBuffer.commands == old(commandBuffer.commands) + Stages(kernel, logSize, start, size)
      ensures next == (start + logSize) % 2
    {
      ghost var before := commandBuffer.commands;
      next := pingPong;
      var stage := 0;
      while stage < logSize
        invariant 0 <= stage <= logSize
        invariant next == (start + stage) % 2
        invariant commandBuffer.commands == before + Stages(kernel, stage, start, size)
      {
        commandBuffer.SetComputeIntParam(PingPong, next);
        commandBuffer.SetComputeIntParam(Stage, stage);
        commandBuffer.DispatchCompute(kernel, size / 8, size / 8, 1);
        next := (next + 1) % 2;
        stage := stage + 1;
      }
    }

    /** For an out-of-place call, copies `input` into `output`, which the passes then work on. */
    method RecordCopyIn(input: RenderTexture, output: RenderTexture?) returns (pingPong0: RenderTexture)
      modifies commandBuffer
      ensures commandBuffer.commands == old(commandBuffer.commands) + CopyIn(size, input, output)
      ensures pingPong0 == WorkTexture(input, output)
    {
      pingPong0 := input;
      if output != null {
        commandBuffer.SetComputeTextureParam(CopyToPingPong1, PingPong0, input);
        commandBuffer.SetComputeTextureParam(CopyToPingPong1, PingPong1, output);
        commandBuffer.DispatchCompute(CopyToPingPong1, size / 8, size / 8, 1);
        pingPong0 := output;
      }
    }

    /** Binds the butterfly table and both ping-pong textures for `kernel`. */
    method RecordBindings(kernel: Kernel, pingPong0: RenderTexture)
      modifies commandBuffer
      ensures commandBuffer.commands == old(commandBuffer.commands) + PassBindings(kernel, butterflyTexture, pingPong0, pingPong1)
    {
      commandBuffer.SetComputeTextureParam(kernel, ButterflyTexture, butterflyTexture);
      commandBuffer.SetComputeTextureParam(kernel, PingPong0, pingPong0);
      commandBuffer.SetComputeTextureParam(kernel, PingPong1, pingPong1);
    }

    method RecordCopyBack(pingPong0: RenderTexture)
      modifies commandBuffer
      ensures commandBuffer.commands == old(commandBuffer.commands) + CopyBack(size, pingPong0, pingPong1)
    {
      commandBuffer.SetComputeTextureParam(CopyToPingPong1, PingPong0, pingPong0);
      commandBuffer.SetComputeTextureParam(CopyToPingPong1, PingPong1, pingPong1);
      commandBuffer.DispatchCompute(CopyToPingPong1, size / 8, size / 8, 1);
    }

    method RecordPermute(pingPong0: RenderTexture)
      modifies commandBuffer
      ensures commandBuffer.commands == old(commandBuffer.commands) + Permute(size, pingPong0, pingPong1)
    {
      commandBuffer.SetComputeIntParam(Size, size);
      commandBuffer.SetComputeTextureParam(PermuteAndScale, PingPong0, pingPong0);
      commandBuffer.SetComputeTextureParam(PermuteAndScale, PingPong1, pingPong1);
      commandBuffer.DispatchCompute(PermuteAndScale, size / 8, size / 8, 1);
    }

    method DoIFFT(input: RenderTexture, output: RenderTexture?)
      modifies commandBuffer
      ensures commandBuffer.commands ==
        old(commandBuffer.commands) + IfftCommands(size, logSize, butterflyTexture, pingPong1, input, output)
    {
      ghost var start := commandBuffer.commands;
      var pingPong := 0;
      var pingPong0 := RecordCopyIn(input, output);
      ghost var acc := CopyIn(size, input, output);

      RecordBindings(HorizontalOperation, pingPong0);
      pingPong := RecordStages(HorizontalOperation, pingPong, 0);
      assert commandBuffer.commands == start + (acc + Pass(HorizontalOperation, logSize, 0, size, butterflyTexture, pingPong0, pingPong1));
      acc := acc + Pass(HorizontalOperation, logSize, 0, size, butterflyTexture, pingPong0, pingPong1);

      RecordBindings(VerticalOperation, pingPong0);
      pingPong := RecordStages(VerticalOperation, pingPong, logSize);
      assert commandBuffer.commands == start + (acc + Pass(VerticalOperation, logSize, logSize, size, butterflyTexture, pingPong0, pingPong1));
      acc := acc + Pass(VerticalOperation, logSize, logSize, size, butterflyTexture, pingPong0, pingPong1);

      RecordCopyBack(pingPong0);
      UnityMath.AppendAssoc(start, acc, CopyBack(size, pingPong0, pingPong1));
      acc := acc + CopyBack(size, pingPong0, pingPong1);
      RecordPermute(pingPong0);
      UnityMath.AppendAssoc(start, acc, Permute(size, pingPong0, pingPong1));
    }
  }
}
