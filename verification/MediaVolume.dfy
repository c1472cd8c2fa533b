/** Software volume: linear gain in 16.16 fixed point
    (components/mybot/src/media/mybot_audio.c). */
module MediaVolume {
  const VOLUME_MIN := 0
  const VOLUME_MAX := 100
  const INT16_MIN := -0x8000
  const INT16_MAX := 0x7FFF

  predicate Sample(x: int) {
    INT16_MIN <= x <= INT16_MAX
  }

  /** C's int32_t: what a sum or product leaves in 32 bits. */
  function Wrap32(n: int): int {
    (n + 0x8000_0000) % 0x1_0000_0000 - 0x8000_0000
  }

  function Gain(volume: nat): nat {
    volume * 0x1_0000 / VOLUME_MAX
  }

  /** An arithmetic shift right by 16. */
  function Shift16(n: int): int {
    n / 0x1_0000
  }

  /** A sample at a volume strictly between mute and full scale, before clamping. */
  function Raw(volume: nat, x: int): int {
    Shift16(Wrap32(Wrap32(x * Gain(volume)) + 0x8000))
  }

  function Clamp(s: int): int {
    if s > INT16_MAX then INT16_MAX else if s < INT16_MIN then INT16_MIN else s
  }

  function Scaled(volume: nat, x: int): int {
    if volume == VOLUME_MAX then x
    else if volume == VOLUME_MIN then 0
    else Clamp(Raw(volume, x))
  }

  lemma MulBounds(x: int, g: nat)
    requires Sample(x) && g <= 0xFFFF
    ensures -0x8000 * g <= x * g <= 0x7FFF * g
  {
  }

  lemma GainBounds(volume: nat)
    requires 1 <= volume <= 99
    ensures 100 * Gain(volume) <= volume * 0x1_0000 < 100 * Gain(volume) + 100
    ensures 655 <= Gain(volume) <= 64880
  {
  }

  /** The product and the rounded sum fit in 32 bits, and neither clamp is reached. */
  lemma NoOverflow(volume: nat, x: int)
    requires 1 <= volume <= 99 && Sample(x)
    ensures Wrap32(x * Gain(volume)) == x * Gain(volume)
    ensures Raw(volume, x) == (x * Gain(volume) + 0x8000) / 0x1_0000
    ensures Clamp(Raw(volume, x)) == Raw(volume, x) == Scaled(volume, x) && Sample(Scaled(volume, x))
  {
    GainBounds(volume);
    MulBounds(x, Gain(volume));
    var p := x * Gain(volume);
    assert -0x8000 * 64880 <= p <= 0x7FFF * 64880;
  }

  /** Rounding costs less than one step: 100 * out is within 100 of in * volume. */
  lemma CloseToExact(volume: nat, x: int)
    requires volume <= 100 && Sample(x)
    ensures -100 < 100 * Scaled(volume, x) - x * volume < 100
  {
    if 1 <= volume <= 99 {
      NoOverflow(volume, x);
      GainBounds(volume);
      var lost := volume * 0x1_0000 - 100 * Gain(volume);
      SplitProduct(x, volume, Gain(volume), lost);
      LostBounds(x, lost);
      RoundedError(x * volume, x * Gain(volume), x * lost);
    }
  }

  /** The sample that comes out is the one nearest to the exact product with the gain, halves going
      up; the gain is the greatest 65536th part not above the volume's percentage. */
  lemma RoundsToNearest(volume: nat, x: int, gain: nat)
    requires 1 <= volume <= 99 && Sample(x)
    requires 100 * gain <= 0x1_0000 * volume < 100 * (gain + 1)
    ensures 0x1_0000 * Scaled(volume, x) - 0x8000 <= x * gain < 0x1_0000 * Scaled(volume, x) + 0x8000
  {
    NoOverflow(volume, x);
    GainBounds(volume);
    assert gain == Gain(volume);
    Halves(x * gain);
  }

  lemma Halves(n: int)
    ensures 0x1_0000 * ((n + 0x8000) / 0x1_0000) - 0x8000 <= n < 0x1_0000 * ((n + 0x8000) / 0x1_0000) + 0x8000
  {
  }

  /** Full volume leaves a sample as it is, and none silences it. */
  lemma FullAndNone(x: int)
    ensures Scaled(100, x) == x && Scaled(0, x) == 0
  {
  }

  lemma SplitProduct(x: int, volume: int, g: int, lost: int)
    requires volume * 0x1_0000 == 100 * g + lost
    ensures (x * volume) * 0x1_0000 == 100 * (x * g) + x * lost
  {
    assert x * (volume * 0x1_0000) == x * (100 * g + lost);
  }

  lemma RoundedError(exact: int, product: int, lost: int)
    requires exact * 0x1_0000 == 100 * product + lost
    requires -0x8000 * 99 <= lost <= 0x7FFF * 99
    ensures -100 < 100 * ((product + 0x8000) / 0x1_0000) - exact < 100
  {
  }

  lemma LostBounds(x: int, lost: int)
    requires Sample(x) && 0 <= lost <= 99
    ensures -0x8000 * 99 <= x * lost <= 0x7FFF * 99
  {
    if x >= 0 {
      assert 0 <= x * lost <= x * 99;
    } else {
      assert x * 99 <= x * lost <= 0;
    }
  }

  /** Scaling never makes a sample louder and never changes its sign. */
  lemma NeverLouder(volume: nat, x: int)
    requires volume <= 100 && Sample(x)
    ensures x >= 0 ==> 0 <= Scaled(volume, x) <= x
    ensures x <= 0 ==> x <= Scaled(volume, x) <= 0
  {
    if 1 <= volume <= 99 {
      NoOverflow(volume, x);
      GainBounds(volume);
      SmallerProduct(x, Gain(volume));
    }
  }

  lemma SmallerProduct(x: int, g: int)
    requires 0 <= g <= 64880
    ensures x >= 0 ==> 0 <= x * g <= x * 64880
    ensures x <= 0 ==> x * 64880 <= x * g <= 0
  {
  }

  /** Louder in is louder out. */
  lemma MonotoneInSample(volume: nat, x: int, y: int)
    requires volume <= 100 && Sample(x) && Sample(y) && x <= y
    ensures Scaled(volume, x) <= Scaled(volume, y)
  {
    if 1 <= volume <= 99 {
      NoOverflow(volume, x);
      NoOverflow(volume, y);
      var g := Gain(volume);
      assert x * g <= y * g by { ProductMonotone(x, y, g); }
    }
  }

  lemma ProductMonotone(x: int, y: int, g: nat)
    requires x <= y
    ensures x * g <= y * g
  {
  }

  /** Rewrites the first samples of a buffer in place. */
  method ApplyMediaVolume(volume: nat, pcm: array<int>, samples: int)
    requires volume <= VOLUME_MAX && samples <= pcm.Length
    requires forall i :: 0 <= i < pcm.Length ==> Sample(pcm[i])
    modifies pcm
    ensures forall i :: 0 <= i < pcm.Length ==>
      pcm[i] == if i < samples then Scaled(volume, old(pcm[i])) else old(pcm[i])
  {
    if samples <= 0 {
      return;
    }
    if volume == VOLUME_MAX {
      return;
    }
    if volume == VOLUME_MIN {
      var j := 0;
      while j < samples
        invariant 0 <= j <= samples
        invariant forall i :: 0 <= i < pcm.Length ==> pcm[i] == if i < j then 0 else old(pcm[i])
      {
        pcm[j] := 0;
        j := j + 1;
      }
      return;
    }
    var gain := volume * 0x1_0000 / VOLUME_MAX;
    var i := 0;
    while i < samples
      invariant 0 <= i <= samples
      invariant forall j :: 0 <= j < pcm.Length ==>
        pcm[j] == if j < i then Scaled(volume, old(pcm[j])) else old(pcm[j])
    {
      var s := Shift16(Wrap32(Wrap32(pcm[i] * gain) + 0x8000));
      if s > INT16_MAX {
        s := INT16_MAX;
      } else if s < INT16_MIN {
        s := INT16_MIN;
      }
      pcm[i] := s;
      i := i + 1;
    }
  }
}
