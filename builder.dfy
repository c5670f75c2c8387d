/**
  * `WaveFormerBuilder`: three optional settings, each set by its own setter,
  * and `build`, which fills the unset ones with defaults.
  */
module Builder {
  import opened Wrappers
  import opened WaveFormers

  datatype WaveFormerBuilder = WaveFormerBuilder(
    waveform: Option<WaveForm>,
    duration: Option<real>,
    frequency: Option<real>)
  {
    /** `WaveFormerBuilder::new` (and `default`): nothing set. */
    static function New(): (b: WaveFormerBuilder)
      ensures b.waveform.None? && b.duration.None? && b.frequency.None?
    {
      WaveFormerBuilder(None, None, None)
    }

    /** Sets the waveform and leaves the other two settings alone. */
    function Waveform(w: WaveForm): (b: WaveFormerBuilder)
      ensures b.waveform == Some(w)
      ensures b.duration == duration && b.frequency == frequency
    {
      this.(waveform := Some(w))
    }

    /** Sets the duration and leaves the other two settings alone. */
    function Duration(d: real): (b: WaveFormerBuilder)
      ensures b.duration == Some(d)
      ensures b.waveform == waveform && b.frequency == frequency
    {
      this.(duration := Some(d))
    }

    /** Sets the frequency and leaves the other two settings alone. */
    function Frequency(f: real): (b: WaveFormerBuilder)
      ensures b.frequency == Some(f)
      ensures b.waveform == waveform && b.duration == duration
    {
      this.(frequency := Some(f))
    }

    /**
      * `build` as written: the waveform defaults to `sin` and the duration to
      * 1.0, but the frequency is read from the duration setting (default
      * 360.0), so the frequency setting is never consulted.
      */
    function Build(): (w: WaveFormer)
      ensures waveform.Some? ==> w.waveform == waveform.value
      ensures waveform.None? ==> w.waveform == Sin
      ensures duration.Some? ==> w.duration == duration.value && w.frequency == duration.value
      ensures duration.None? ==> w.duration == 1.0 && w.frequency == 360.0
    {
      WaveFormer(
        waveform.UnwrapOr(Sin),
        duration.UnwrapOr(1.0),
        duration.UnwrapOr(360.0))
    }

    /** `build` as evidently intended: the frequency comes from its own setting. */
    function BuildIntended(): (w: WaveFormer)
      ensures waveform.Some? ==> w.waveform == waveform.value
      ensures waveform.None? ==> w.waveform == Sin
      ensures duration.Some? ==> w.duration == duration.value
      ensures duration.None? ==> w.duration == 1.0
      ensures frequency.Some? ==> w.frequency == frequency.value
      ensures frequency.None? ==> w.frequency == 360.0
    {
      WaveFormer(
        waveform.UnwrapOr(Sin),
        duration.UnwrapOr(1.0),
        frequency.UnwrapOr(360.0))
    }
  }

  /** With no setter called, `build` gives a 1-second 360 Hz sine. */
  lemma BuildDefaults()
    ensures WaveFormerBuilder.New().Build() == WaveFormer(Sin, 1.0, 360.0)
  {
  }

  /** As written, calling the frequency setter changes nothing that is built. */
  lemma FrequencySetterIgnored(b: WaveFormerBuilder, f: real)
    ensures b.Frequency(f).Build() == b.Build()
  {
  }

  /** As written, the built frequency is whatever duration was set. */
  lemma FrequencyFollowsDuration(b: WaveFormerBuilder, d: real)
    ensures b.Duration(d).Build().frequency == d
    ensures b.Duration(d).Build().duration == d
  {
  }

  /** The two builds differ: new().frequency(440.0).build() still sounds at 360 Hz. */
  lemma BuildMisreadsFrequency()
    ensures WaveFormerBuilder.New().Frequency(440.0).Build().frequency == 360.0
    ensures WaveFormerBuilder.New().Frequency(440.0).BuildIntended().frequency == 440.0
  {
  }

  /** The intended build honours all three setters, whatever was set before. */
  lemma BuildIntendedHonoursSetters(b: WaveFormerBuilder, w: WaveForm, d: real, f: real)
    ensures b.Waveform(w).Duration(d).Frequency(f).BuildIntended() == WaveFormer(w, d, f)
  {
  }

  /**
    * Both builds agree when neither the duration nor the frequency was set,
    * in particular on `new().build()`, the only build the pipeline makes.
    */
  lemma BuildsAgreeWithoutFrequency(b: WaveFormerBuilder)
    requires b.frequency.None?
    requires b.duration.None?
    ensures b.BuildIntended() == b.Build()
  {
  }
}
