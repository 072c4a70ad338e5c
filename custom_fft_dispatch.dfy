/** The out-of-place inverse FFT driver: the passes always read `input`
    (bound as PingPong0), and the final permute-and-scale writes the result to
    `output` (bound as TimeDomain) with the final ping-pong parity. */
module CustomFftDispatch {
  import opened FftCommands
  import UnityMath

  /** The final permute-and-scale, told the final parity and the output texture. */
  function PermuteToOutput(size: int, parity: int, input: RenderTexture, pingPong1: RenderTexture,
                           output: RenderTexture): seq<Command>
  {
    [SetInt(Size, size), SetInt(PingPong, parity),
     SetTexture(PermuteAndScale, PingPong0, input), SetTexture(PermuteAndScale, PingPong1, pingPong1),
     SetTexture(PermuteAndScale, TimeDomain, output),
     Dispatch(PermuteAndScale, size / 8, size / 8, 1)]
  }

  /** Everything one `DoIFFT` records: both passes work on `input`, and the
      parity after `2 * logSize` toggles is `(logSize + logSize) % 2`. */
  function CustomIfftCommands(size: int, logSize: nat, butterfly: RenderTexture, pingPong1: RenderTexture,
                              input: RenderTexture, output: RenderTexture): seq<Command>
  {
    Pass(HorizontalOperation, logSize, 0, size, butterfly, input, pingPong1)
      + Pass(VerticalOperation, logSize, logSize, size, butterfly, input, pingPong1)
      + PermuteToOutput(size, (logSize + logSize) % 2, input, pingPong1, output)
  }

  /** A transform collects as its three blocks do, one after the other. */
  lemma CustomBlocks<T>(size: int, logSize: nat, butterfly: RenderTexture, pingPong1: RenderTexture,
                        input: RenderTexture, output: RenderTexture, f: Command -> seq<T>)
    ensures Collect(CustomIfftCommands(size, logSize, butterfly, pingPong1, input, output), f) ==
      Collect(Pass(HorizontalOperation, logSize, 0, size, butterfly, input, pingPong1), f)
      + Collect(Pass(VerticalOperation, logSize, logSize, size, butterfly, input, pingPong1), f)
      + Collect(PermuteToOutput(size, (logSize + logSize) % 2, input, pingPong1, output), f)
  {
    CollectOfThree(Pass(HorizontalOperation, logSize, 0, size, butterfly, input, pingPong1),
                   Pass(VerticalOperation, logSize, logSize, size, butterfly, input, pingPong1),
                   PermuteToOutput(size, (logSize + logSize) % 2, input, pingPong1, output), f);
  }

  /** The permute-and-scale collects as its six commands do. */
  lemma PermuteCollect<T>(size: int, parity: int, input: RenderTexture, pingPong1: RenderTexture,
                          output: RenderTexture, f: Command -> seq<T>)
    ensures Collect(PermuteToOutput(size, parity, input, pingPong1, output), f) ==
      f(SetInt(Size, size)) + f(SetInt(PingPong, parity))
      + f(SetTexture(PermuteAndScale, PingPong0, input)) + f(SetTexture(PermuteAndScale, PingPong1, pingPong1))
      + f(SetTexture(PermuteAndScale, TimeDomain, output)) + f(Dispatch(PermuteAndScale, size / 8, size / 8, 1))
  {
    CollectSixCommands(SetInt(Size, size), SetInt(PingPong, parity),
                       SetTexture(PermuteAndScale, PingPong0, input), SetTexture(PermuteAndScale, PingPong1, pingPong1),
                       SetTexture(PermuteAndScale, TimeDomain, output), Dispatch(PermuteAndScale, size / 8, size / 8, 1), f);
  }

  /** The dispatches: the horizontal stages, the vertical stages, then the
      permute; no copy kernel is ever dispatched. */
  lemma CustomIfftDispatches(size: int, logSize: nat, butterfly: RenderTexture, pingPong1: RenderTexture,
                             input: RenderTexture, output: RenderTexture)
    ensures Dispatched(CustomIfftCommands(size, logSize, butterfly, pingPong1, input, output)) ==
      Repeat(HorizontalOperation, logSize) + Repeat(VerticalOperation, logSize) + [PermuteAndScale]
  {
    CustomBlocks(size, logSize, butterfly, pingPong1, input, output, KernelOf);
    CustomDispatchParts(size, logSize, butterfly, pingPong1, input, output);
  }

  /** The kernels each block of a transform dispatches. */
  lemma CustomDispatchParts(size: int, logSize: nat, butterfly: RenderTexture, pingPong1: RenderTexture,
                            input: RenderTexture, output: RenderTexture)
    ensures Collect(Pass(HorizontalOperation, logSize, 0, size, butterfly, input, pingPong1), KernelOf) == Repeat(HorizontalOperation, logSize)
    ensures Collect(Pass(VerticalOperation, logSize, logSize, size, butterfly, input, pingPong1), KernelOf) == Repeat(VerticalOperation, logSize)
    ensures Collect(PermuteToOutput(size, (logSize + logSize) % 2, input, pingPong1, output), KernelOf) == [PermuteAndScale]
  {
    PassDispatched(HorizontalOperation, logSize, 0, size, butterfly, input, pingPong1);
    PassDispatched(VerticalOperation, logSize, logSize, size, butterfly, input, pingPong1);
    PermuteCollect(size, (logSize + logSize) % 2, input, pingPong1, output, KernelOf);
  }

  /** Exactly `2 * logSize + 1` dispatches, none of them the copy kernel. */
  lemma CustomIfftDispatchCount(size: int, logSize: nat, butterfly: RenderTexture, pingPong1: RenderTexture,
                                input: RenderTexture, output: RenderTexture)
    ensures |Dispatched(CustomIfftCommands(size, logSize, butterfly, pingPong1, input, output))| == 2 * logSize + 1
    ensures CopyToPingPong1 !in Dispatched(CustomIfftCommands(size, logSize, butterfly, pingPong1, input, output))
  {
    CustomIfftDispatches(size, logSize, butterfly, pingPong1, input, output);
  }

  /** Horizontal stages `0 .. logSize-1` precede vertical stages `0 .. logSize-1`. */
  lemma CustomIfftStageNumbers(size: int, logSize: nat, butterfly: RenderTexture, pingPong1: RenderTexture,
                               input: RenderTexture, output: RenderTexture)
    ensures IntValues(CustomIfftCommands(size, logSize, butterfly, pingPong1, input, output), Stage) ==
      Range(logSize) + Range(logSize) + []
  {
    CustomBlocks(size, logSize, butterfly, pingPong1, input, output, IntOf(Stage));
    CustomStageParts(size, logSize, butterfly, pingPong1, input, output);
  }

  /** The stage numbers each block of a transform sets. */
  lemma CustomStageParts(size: int, logSize: nat, butterfly: RenderTexture, pingPong1: RenderTexture,
                         input: RenderTexture, output: RenderTexture)
    ensures Collect(Pass(HorizontalOperation, logSize, 0, size, butterfly, input, pingPong1), IntOf(Stage)) == Range(logSize)
    ensures Collect(Pass(VerticalOperation, logSize, logSize, size, butterfly, input, pingPong1), IntOf(Stage)) == Range(logSize)
    ensures Collect(PermuteToOutput(size, (logSize + logSize) % 2, input, pingPong1, output), IntOf(Stage)) == []
  {
    PassStageValues(HorizontalOperation, logSize, 0, size, butterfly, input, pingPong1);
    PassStageValues(VerticalOperation, logSize, logSize, size, butterfly, input, pingPong1);
    PermuteCollect(size, (logSize + logSize) % 2, input, pingPong1, output, IntOf(Stage));
  }

  /** The stages alternate the parity from 0, and the permute is told the final
      parity, which after an even number of toggles is 0 again. */
  lemma CustomIfftParities(size: int, logSize: nat, butterfly: RenderTexture, pingPong1: RenderTexture,
                           input: RenderTexture, output: RenderTexture)
    ensures IntValues(CustomIfftCommands(size, logSize, butterfly, pingPong1, input, output), PingPong) ==
      Parities(0, 2 * logSize) + [0]
  {
    CustomBlocks(size, logSize, butterfly, pingPong1, input, output, IntOf(PingPong));
    CustomParityParts(size, logSize, butterfly, pingPong1, input, output);
    ParitiesConcat(logSize, logSize);
  }

  /** The parities each block of a transform sets. */
  lemma CustomParityParts(size: int, logSize: nat, butterfly: RenderTexture, pingPong1: RenderTexture,
                          input: RenderTexture, output: RenderTexture)
    ensures Collect(Pass(HorizontalOperation, logSize, 0, size, butterfly, input, pingPong1), IntOf(PingPong)) == Parities(0, logSize)
    ensures Collect(Pass(VerticalOperation, logSize, logSize, size, butterfly, input, pingPong1), IntOf(PingPong)) == Parities(logSize, logSize)
    ensures Collect(PermuteToOutput(size, (logSize + logSize) % 2, input, pingPong1, output), IntOf(PingPong)) == [0]
  {
    assert (logSize + logSize) % 2 == 0;
    PassParities(HorizontalOperation, logSize, 0, size, butterfly, input, pingPong1);
    PassParities(VerticalOperation, logSize, logSize, size, butterfly, input, pingPong1);
    PermuteCollect(size, (logSize + logSize) % 2, input, pingPong1, output, IntOf(PingPong));
  }

  /** PingPong0 is bound to `input` by both passes and by the permute. */
  lemma CustomIfftPingPong0(size: int, logSize: nat, butterfly: RenderTexture, pingPong1: RenderTexture,
                            input: RenderTexture, output: RenderTexture)
    ensures Bound(CustomIfftCommands(size, logSize, butterfly, pingPong1, input, output), PingPong0) ==
      [input] + [input] + [input]
  {
    CustomBlocks(size, logSize, butterfly, pingPong1, input, output, TextureOf(PingPong0));
    CustomPingPong0Parts(size, logSize, butterfly, pingPong1, input, output);
  }

  /** The textures each block of a transform binds as PingPong0. */
  lemma CustomPingPong0Parts(size: int, logSize: nat, butterfly: RenderTexture, pingPong1: RenderTexture,
                             input: RenderTexture, output: RenderTexture)
    ensures Collect(Pass(HorizontalOperation, logSize, 0, size, butterfly, input, pingPong1), TextureOf(PingPong0)) == [input]
    ensures Collect(Pass(VerticalOperation, logSize, logSize, size, butterfly, input, pingPong1), TextureOf(PingPong0)) == [input]
    ensures Collect(PermuteToOutput(size, (logSize + logSize) % 2, input, pingPong1, output), TextureOf(PingPong0)) == [input]
  {
    PassPingPong0(HorizontalOperation, logSize, 0, size, butterfly, input, pingPong1);
    PassPingPong0(VerticalOperation, logSize, logSize, size, butterfly, input, pingPong1);
    PermuteCollect(size, (logSize + logSize) % 2, input, pingPong1, output, TextureOf(PingPong0));
  }

  /** `output` is bound once, as TimeDomain by the permute; the passes never bind TimeDomain. */
  lemma CustomIfftTimeDomain(size: int, logSize: nat, butterfly: RenderTexture, pingPong1: RenderTexture,
                             input: RenderTexture, output: RenderTexture)
    ensures Bound(CustomIfftCommands(size, logSize, butterfly, pingPong1, input, output), TimeDomain) ==
      [] + [] + [output]
  {
    CustomBlocks(size, logSize, butterfly, pingPong1, input, output, TextureOf(TimeDomain));
    CustomTimeDomainParts(size, logSize, butterfly, pingPong1, input, output);
  }

  /** The textures each block of a transform binds as TimeDomain. */
  lemma CustomTimeDomainParts(size: int, logSize: nat, butterfly: RenderTexture, pingPong1: RenderTexture,
                              input: RenderTexture, output: RenderTexture)
    ensures Collect(Pass(HorizontalOperation, logSize, 0, size, butterfly, input, pingPong1), TextureOf(TimeDomain)) == []
    ensures Collect(Pass(VerticalOperation, logSize, logSize, size, butterfly, input, pingPong1), TextureOf(TimeDomain)) == []
    ensures Collect(PermuteToOutput(size, (logSize + logSize) % 2, input, pingPong1, output), TextureOf(TimeDomain)) == [output]
  {
    PassTimeDomain(HorizontalOperation, logSize, 0, size, butterfly, input, pingPong1);
    PassTimeDomain(VerticalOperation, logSize, logSize, size, butterfly, input, pingPong1);
    PermuteCollect(size, (logSize + logSize) % 2, input, pingPong1, output, TextureOf(TimeDomain));
  }

  /** Every dispatch of a transform uses `size/8 x size/8 x 1` thread groups. */
  lemma CustomIfftGroups(size: int, logSize: nat, butterfly: RenderTexture, pingPong1: RenderTexture,
                         input: RenderTexture, output: RenderTexture)
    ensures AllGroups(CustomIfftCommands(size, logSize, butterfly, pingPong1, input, output), size / 8, size / 8, 1)
  {
    var b1 := Pass(HorizontalOperation, logSize, 0, size, butterfly, input, pingPong1);
    var b2 := Pass(VerticalOperation, logSize, logSize, size, butterfly, input, pingPong1);
    var b3 := PermuteToOutput(size, (logSize + logSize) % 2, input, pingPong1, output);
    PassGroups(HorizontalOperation, logSize, 0, size, butterfly, input, pingPong1);
    PassGroups(VerticalOperation, logSize, logSize, size, butterfly, input, pingPong1);
    AllGroupsAppend(b1, b2, size / 8, size / 8, 1);
    AllGroupsAppend(b1 + b2, b3, size / 8, size / 8, 1);
  }

  class ComputeCustomFFT {
    const commandBuffer: CommandBuffer
    const butterflyTexture: RenderTexture
    const pingPong1: RenderTexture
    const size: int
    const logSize: nat

    /** Creates the textures and records the butterfly precompute, once. */
    constructor (size: int, commandBuffer: CommandBuffer)
      requires size >= 1
      modifies commandBuffer
      ensures this.size == size && logSize == Log2Floor(size) && this.commandBuffer == commandBuffer
      ensures butterflyTexture.width == logSize && butterflyTexture.height == size
      ensures pingPong1.width == size && pingPong1.height == size
      ensures fresh(butterflyTexture) && fresh(pingPong1)
      ensures commandBuffer.commands == old(commandBuffer.commands) + ButterflyCommands(size, logSize, butterflyTexture)
    {
      this.size := size;
      this.commandBuffer := commandBuffer;
      var log := Log2Floor(size);
      logSize := log;
      butterflyTexture := new RenderTexture(log, size);
      pingPong1 := new RenderTexture(size, size);
      new;
      ComputeButerflyTexture();
    }

    method ComputeButerflyTexture()
      modifies commandBuffer
      ensures commandBuffer.commands == old(commandBuffer.commands) + ButterflyCommands(size, logSize, butterflyTexture)
    {
      commandBuffer.SetComputeIntParam(Size, size);
      commandBuffer.SetComputeIntParam(LogSize, logSize);
      commandBuffer.SetComputeTextureParam(ComputeButterflyTexture, ButterflyTexture, butterflyTexture);
      commandBuffer.DispatchCompute(ComputeButterflyTexture, logSize, size / 8, 1);
    }

    /** Binds the butterfly table, `input` and the ping-pong texture for `kernel`. */
    method RecordBindings(kernel: Kernel, input: RenderTexture)
      modifies commandBuffer
      ensures commandBuffer.commands == old(commandBuffer.commands) + PassBindings(kernel, butterflyTexture, input, pingPong1)
    {
      commandBuffer.SetComputeTextureParam(kernel, ButterflyTexture, butterflyTexture);
      commandBuffer.SetComputeTextureParam(kernel, PingPong0, input);
      commandBuffer.SetComputeTextureParam(kernel, PingPong1, pingPong1);
    }

    /** One pass: `logSize` stages, each setting the parity and the stage
        number and dispatching `kernel`, with the parity toggled after each. */
    method RecordStages(kernel: Kernel, pingPong: int, ghost start: int) returns (next: int)
      requires pingPong == start % 2
      modifies commandBuffer
      ensures commandBuffer.commands == old(commandBuffer.commands) + Stages(kernel, logSize, start, size)
      ensures next == (start + logSize) % 2
    {
      ghost var before := commandBuffer.commands;
      next := pingPong;
      var stage := 0;
      while stage < logSize
        invariant 0 <= stage <= logSize
        invariant next == (start + stage) % 2
        invariant commandBuffer.commands == before + Stages(kernel, stage, start, size)
      {
        commandBuffer.SetComputeIntParam(PingPong, next);
        commandBuffer.SetComputeIntParam(Stage, stage);
        commandBuffer.DispatchCompute(kernel, size / 8, size / 8, 1);
        next := (next + 1) % 2;
        stage := stage + 1;
      }
    }

    method RecordPermute(pingPong: int, input: RenderTexture, output: RenderTexture)
      modifies commandBuffer
      ensures commandBuffer.commands == old(commandBuffer.commands) + PermuteToOutput(size, pingPong, input, pingPong1, output)
    {
      commandBuffer.SetComputeIntParam(Size, size);
      commandBuffer.SetComputeIntParam(PingPong, pingPong);
      commandBuffer.SetComputeTextureParam(PermuteAndScale, PingPong0, input);
      commandBuffer.SetComputeTextureParam(PermuteAndScale, PingPong1, pingPong1);
      commandBuffer.SetComputeTextureParam(PermuteAndScale, TimeDomain, output);
      commandBuffer.DispatchCompute(PermuteAndScale, size / 8, size / 8, 1);
    }

    method DoIFFT(input: RenderTexture, output: RenderTexture)
      modifies commandBuffer
      ensures commandBuffer.commands ==
        old(commandBuffer.commands) + CustomIfftCommands(size, logSize, butterflyTexture, pingPong1, input, output)
    {
      ghost var start := commandBuffer.commands;
      var pingPong := 0;

      RecordBindings(HorizontalOperation, input);
      pingPong := RecordStages(HorizontalOperation, pingPong, 0);
      ghost var acc := Pass(HorizontalOperation, logSize, 0, size, butterflyTexture, input, pingPong1);
      assert commandBuffer.commands == start + acc;

      RecordBindings(VerticalOperation, input);
      pingPong := RecordStages(VerticalOperation, pingPong, logSize);
      assert commandBuffer.commands == start + (acc + Pass(VerticalOperation, logSize, logSize, size, butterflyTexture, input, pingPong1));
      acc := acc + Pass(VerticalOperation, logSize, logSize, size, butterflyTexture, input, pingPong1);

      RecordPermute(pingPong, input, output);
      UnityMath.AppendAssoc(start, acc, PermuteToOutput(size, pingPong, input, pingPong1, output));
    }
  }
}
