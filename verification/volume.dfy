/**
 The affine volume normalisation used when polling a receiver: a receiver
 volume (in the receiver's dB-like units) becomes a level with `minVolume` at 0
 and the configured `maxVolume` at 1. The driver computes in `float64`; this
 model computes over `real`.
 */
module Volume {

  /** The normalised level of a receiver volume. */
  function Level(volume: real, maxVolume: real, minVolume: real): (level: real)
    requires maxVolume != minVolume
    ensures level * (maxVolume - minVolume) == volume - minVolume
  {
    (volume - minVolume) / (maxVolume - minVolume)
  }

  /** The receiver volume a normalised level stands for: the inverse mapping. */
  function VolumeOf(level: real, maxVolume: real, minVolume: real): (volume: real)
    ensures level == 0.0 ==> volume == minVolume
    ensures level == 1.0 ==> volume == maxVolume
  {
    minVolume + level * (maxVolume - minVolume)
  }

  /** A product with a non-zero factor vanishes only if the other factor does. */
  lemma ZeroFactor(a: real, b: real)
    requires a * b == 0.0 && b != 0.0
    ensures a == 0.0
  {
  }

  lemma LevelAtMin(maxVolume: real, minVolume: real)
    requires maxVolume != minVolume
    ensures Level(minVolume, maxVolume, minVolume) == 0.0
  {
  }

  lemma LevelAtMax(maxVolume: real, minVolume: real)
    requires maxVolume != minVolume
    ensures Level(maxVolume, maxVolume, minVolume) == 1.0
  {
    var l := Level(maxVolume, maxVolume, minVolume);
    var range := maxVolume - minVolume;
    assert (l - 1.0) * range == l * range - range;
    assert (l - 1.0) * range == 0.0;
    ZeroFactor(l - 1.0, range);
  }

  /** Normalising and then mapping back gives the original volume. */
  lemma VolumeOfLevel(volume: real, maxVolume: real, minVolume: real)
    requires maxVolume != minVolume
    ensures VolumeOf(Level(volume, maxVolume, minVolume), maxVolume, minVolume) == volume
  {
  }

  /** Mapping a level to a volume and normalising it gives the original level. */
  lemma LevelOfVolume(level: real, maxVolume: real, minVolume: real)
    requires maxVolume != minVolume
    ensures Level(VolumeOf(level, maxVolume, minVolume), maxVolume, minVolume) == level
  {
  }

  /** With a proper range the normalisation preserves and reflects order. */
  lemma LevelMonotone(v1: real, v2: real, maxVolume: real, minVolume: real)
    requires maxVolume > minVolume
    ensures v1 <= v2 <==> Level(v1, maxVolume, minVolume) <= Level(v2, maxVolume, minVolume)
    ensures v1 < v2 <==> Level(v1, maxVolume, minVolume) < Level(v2, maxVolume, minVolume)
  {
  }

  /** There is no clamping: the level lies in [0, 1] exactly for volumes
      between `minVolume` and `maxVolume`. */
  lemma LevelInUnitRange(volume: real, maxVolume: real, minVolume: real)
    requires maxVolume > minVolume
    ensures 0.0 <= Level(volume, maxVolume, minVolume) <= 1.0 <==> minVolume <= volume <= maxVolume
  {
    LevelAtMin(maxVolume, minVolume);
    LevelAtMax(maxVolume, minVolume);
    LevelMonotone(minVolume, volume, maxVolume, minVolume);
    LevelMonotone(volume, maxVolume, maxVolume, minVolume);
  }
}
