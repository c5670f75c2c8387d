/**
  * `WaveFormer` and its render loop. The sample for one frame (phase from the
  * frame's time and the frequency, waveform, half-scale) and the frame count
  * (`duration_to_frame`) are floating-point work, so a render is given them as
  * the functions `synth` and `toFrames`; what is modelled is how many samples
  * the loop writes, in which order, and on which channel.
  */
module WaveFormers {

  /** `constants::CHANNELS`. */
  const Channels: nat := 2

  /** The four functions of `wave_forms`, identified by which one is chosen. */
  datatype WaveForm = Sqr | Saw | Tri | Sin

  /** The render descriptor: waveform, duration in seconds, frequency in Hz. */
  datatype WaveFormer = WaveFormer(waveform: WaveForm, duration: real, frequency: real)

  /** The samples of the first `frames` frames: each frame's sample once per channel. */
  function Written(w: WaveFormer, frames: nat, synth: (WaveFormer, nat) -> real): (s: seq<real>)
    ensures |s| == frames * Channels
  {
    if frames == 0 then []
    else Written(w, frames - 1, synth) + seq(Channels, _ => synth(w, frames - 1))
  }

  /**
    * The written stream has one sample per frame and channel, and its sample
    * at position `i` belongs to frame `i / Channels`: frames come in
    * increasing order, each repeated on every channel.
    */
  lemma {:induction false} WrittenLayout(w: WaveFormer, frames: nat, synth: (WaveFormer, nat) -> real)
    ensures forall i :: 0 <= i < |Written(w, frames, synth)| ==>
      Written(w, frames, synth)[i] == synth(w, i / Channels)
  {
    if frames > 0 {
      WrittenLayout(w, frames - 1, synth);
    }
  }

  /** Both channels of frame `f` carry that frame's sample. */
  lemma ChannelsAgree(w: WaveFormer, frames: nat, synth: (WaveFormer, nat) -> real, f: nat)
    requires f < frames
    ensures Written(w, frames, synth)[Channels * f] == synth(w, f)
    ensures Written(w, frames, synth)[Channels * f + 1] == synth(w, f)
  {
    WrittenLayout(w, frames, synth);
  }

  /**
    * `WaveFormer::render`: for each of `toFrames(duration)` frames, compute the
    * frame's sample and write it once per channel to a fresh writer.
    */
  method Render(w: WaveFormer, toFrames: real -> nat, synth: (WaveFormer, nat) -> real)
    returns (writer: seq<real>)
    ensures writer == Written(w, toFrames(w.duration), synth)
    ensures |writer| == toFrames(w.duration) * Channels
  {
    writer := [];
    var framesCount := toFrames(w.duration);
    for frame := 0 to framesCount
      invariant writer == Written(w, frame, synth)
    {
      var sample := synth(w, frame);
      ghost var before := writer;
      for channel := 0 to Channels
        invariant writer == before + seq(channel, _ => sample)
      {
        writer := writer + [sample];
      }
    }
    WrittenLayout(w, framesCount, synth);
  }
}
