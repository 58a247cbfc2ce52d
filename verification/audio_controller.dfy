/** `AudioController`: the output device's mute flag and master level, and the snapshot of
    the level that `silence` takes and `restore` puts back. The device is two fields; its
    level is a whole percentage. */
module AudioControl {
  import opened Wrappers

  /** The message of the `ValueError` raised by `set_volume`. */
  const VolumeRangeError := "El volumen debe estar entre 0 y 100"
  const DefaultVolume := 50

  class AudioController {
    /** The device's mute flag (`SetMute(1)` / `SetMute(0)`). */
    var muted: bool
    /** The device's master level, as a percentage. */
    var level: int
    /** `original_volume`: the level `silence` saved, if any. */
    var originalVolume: Option<int>

    ghost predicate Valid()
      reads this
    {
      0 <= level <= 100 && (originalVolume.Some? ==> 0 <= originalVolume.value <= 100)
    }

    /** Attaches to a device in whatever state it is; there is no snapshot yet. */
    constructor (deviceMuted: bool, deviceLevel: int)
      requires 0 <= deviceLevel <= 100
      ensures Valid()
      ensures muted == deviceMuted && level == deviceLevel && originalVolume == None
    {
      muted := deviceMuted;
      level := deviceLevel;
      originalVolume := None;
    }

    /** `get_volume`: the device level, always a percentage in [0, 100]. */
    function GetVolume(): (v: int)
      reads this
      requires Valid()
      ensures 0 <= v <= 100 && v == level
    {
      level
    }

    /** `set_volume`: outside [0, 100] it raises `ValueError` and the device is untouched;
        otherwise `get_volume()` returns the new value from then on. */
    method SetVolume(pct: int) returns (r: Outcome<string>)
      requires Valid()
      modifies this`level
      ensures Valid()
      ensures r == (if pct < 0 || pct > 100 then Fail(VolumeRangeError) else Pass)
      ensures r.Fail? ==> level == old(level)
      ensures r.Pass? ==> GetVolume() == pct
    {
      if pct < 0 || pct > 100 {
        return Fail(VolumeRangeError);
      }
      level := pct;
      r := Pass;
    }

    /** `mute`: only the mute flag changes. */
    method Mute()
      requires Valid()
      modifies this`muted
      ensures Valid() && muted
      ensures level == old(level) && originalVolume == old(originalVolume)
    {
      muted := true;
    }

    /** `unmute`: only the mute flag changes. */
    method Unmute()
      requires Valid()
      modifies this`muted
      ensures Valid() && !muted
      ensures level == old(level) && originalVolume == old(originalVolume)
    {
      muted := false;
    }

    /** `silence`: saves the current level as the snapshot, then mutes; the level itself
        stays where it was. A second call overwrites the snapshot. */
    method Silence()
      requires Valid()
      modifies this`muted, this`originalVolume
      ensures Valid()
      ensures originalVolume == Some(old(GetVolume())) && muted && level == old(level)
    {
      originalVolume := Some(GetVolume());
      Mute();
    }

    /** `restore`: with a snapshot, unmutes, puts the level back and clears the snapshot;
        the inner `set_volume` cannot fail because the snapshot came from `get_volume`.
        Without a snapshot it changes nothing. */
    method Restore()
      requires Valid()
      modifies this
      ensures Valid()
      ensures old(originalVolume).None? ==> unchanged(this)
      ensures old(originalVolume).Some? ==>
                !muted && GetVolume() == old(originalVolume).value && originalVolume == None
    {
      if originalVolume.Some? {
        Unmute();
        var r := SetVolume(originalVolume.value);
        assert r.Pass?;
        originalVolume := None;
      }
    }

    /** `set_default_volume`: `set_volume` with 50 unless told otherwise. */
    method SetDefaultVolume(defaultVolume: int := DefaultVolume) returns (r: Outcome<string>)
      requires Valid()
      modifies this`level
      ensures Valid()
      ensures r == (if defaultVolume < 0 || defaultVolume > 100 then Fail(VolumeRangeError) else Pass)
      ensures r.Fail? ==> level == old(level)
      ensures r.Pass? ==> GetVolume() == defaultVolume
    {
      r := SetVolume(defaultVolume);
    }
  }

  /** The mute/restore bracket: from any state, even an already muted device, `silence`
      followed by `restore` leaves the device unmuted at its earlier level, with no snapshot. */
  method SilenceThenRestore(c: AudioController)
    requires c.Valid()
    modifies c
    ensures c.Valid()
    ensures !c.muted && c.GetVolume() == old(c.GetVolume()) && c.originalVolume == None
  {
    c.Silence();
    c.Restore();
  }

  /** A second `restore` right after the first changes nothing: `restore` is idempotent. */
  method RestoreTwice(c: AudioController)
    requires c.Valid()
    modifies c
    ensures c.Valid() && c.originalVolume == None
    ensures old(c.originalVolume).None? ==> unchanged(c)
    ensures old(c.originalVolume).Some? ==> !c.muted && c.GetVolume() == old(c.originalVolume).value
  {
    c.Restore();
    ghost var once := (c.muted, c.level, c.originalVolume);
    c.Restore();
    assert (c.muted, c.level, c.originalVolume) == once;
  }
}
