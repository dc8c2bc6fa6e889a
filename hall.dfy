/** The Hall-sensor sector decoder of firmware/src/encoder/hall.c: a 3-bit
    sector code read from GPIO port F is mapped through an 8-entry calibrated
    table to an angle, and the table carries a single "calibrated" flag. */
module Hall {
  import opened CInt

  /** The 8-entry sector-to-angle table; its entries are bytes. */
  type SectorMap = s: seq<bv8> | |s| == 8 witness [0, 0, 0, 0, 0, 0, 0, 0]

  const ClearedMap: SectorMap := [0, 0, 0, 0, 0, 0, 0, 0]

  /** A value image of the firmware's HallConfig record, as saved and restored. */
  datatype HallConfig = HallConfig(sectorMap: SectorMap, sectorMapCalibrated: bool)

  /** The sector code carried by pins 2..4 of the GPIO port F input word. */
  function SectorOf(gpioIn: bv32): (s: bv8)
    ensures s < 8
    ensures s as bv32 == (gpioIn / 4) % 8
  {
    ((gpioIn >> 2) & 7) as bv8
  }

  /** Only pins 2..4 matter: whatever the other pins read, code `s` on those
      three pins decodes to sector `s`. */
  lemma SectorIgnoresOtherPins(s: bv32, low: bv32, high: bv32)
    requires s < 8 && low < 4
    ensures SectorOf((high << 5) | (s << 2) | low) as bv32 == s
  {
  }

  /** The module-level `config` and `state` records of the decoder. The table
      is one fixed buffer that is overwritten in place, never reallocated. */
  class HallEncoder {
    const sectorMap: array<bv8>
    var sectorMapCalibrated: bool
    var sector: bv8
    var angle: Int16

    ghost predicate Valid()
      reads this
    {
      sectorMap.Length == 8 && sector < 8 && 0 <= angle < 256
    }

    /** The configuration as a value. */
    ghost function Config(): (c: HallConfig)
      reads this, sectorMap
      requires Valid()
    {
      HallConfig(sectorMap[..], sectorMapCalibrated)
    }

    /** Both records start zero-initialised. */
    constructor ()
      ensures Valid() && fresh(sectorMap)
      ensures Config() == HallConfig(ClearedMap, false)
      ensures sector == 0 && angle == 0
    {
      sectorMap := new bv8[8](_ => 0);
      sectorMapCalibrated := false;
      sector, angle := 0, 0;
      new;
      assert sectorMap[..] == ClearedMap;
    }

    method GetAngle() returns (a: Int16)
      ensures a == angle
    {
      a := angle;
    }

    /** One decoder tick. `checkError` is accepted and ignored: the
        sector-jump plausibility check is not implemented. */
    method UpdateAngle(gpioIn: bv32, checkError: bool)
      requires Valid()
      modifies this
      ensures Valid()
      ensures sector == SectorOf(gpioIn)
      ensures angle == sectorMap[sector] as int
      ensures sectorMap[..] == old(sectorMap[..])
      ensures sectorMapCalibrated == old(sectorMapCalibrated)
    {
      sector := SectorOf(gpioIn);
      angle := sectorMap[sector] as int;
    }

    method GetSector() returns (s: bv8)
      ensures s == sector
    {
      s := sector;
    }

    /** Zeroes the table in place and drops the calibrated flag. The new
        configuration does not depend on the old one, so clearing twice
        leaves the same state as clearing once. */
    method ClearSectorMap()
      requires Valid()
      modifies this, sectorMap
      ensures Valid()
      ensures Config() == HallConfig(ClearedMap, false)
      ensures sector == old(sector) && angle == old(angle)
    {
      forall i | 0 <= i < sectorMap.Length {
        sectorMap[i] := 0;
      }
      sectorMapCalibrated := false;
      assert sectorMap[..] == ClearedMap;
    }

    method SetSectorMapCalibrated()
      requires Valid()
      modifies this
      ensures Valid()
      ensures sectorMapCalibrated
      ensures sectorMap[..] == old(sectorMap[..])
      ensures sector == old(sector) && angle == old(angle)
    {
      sectorMapCalibrated := true;
    }

    method SectorMapIsCalibrated() returns (b: bool)
      ensures b == sectorMapCalibrated
    {
      b := sectorMapCalibrated;
    }

    /** Raw access to the table, through which an external calibration
        routine fills in the entries. */
    method GetSectorMapPtr() returns (p: array<bv8>)
      ensures p == sectorMap
    {
      p := sectorMap;
    }

    method GetConfig() returns (c: HallConfig)
      requires Valid()
      ensures c.sectorMap == sectorMap[..]
      ensures c.sectorMapCalibrated == sectorMapCalibrated
    {
      c := HallConfig(sectorMap[..], sectorMapCalibrated);
    }

    /** Whole-record assignment: the table is copied into the buffer. */
    method RestoreConfig(c: HallConfig)
      requires Valid()
      modifies this, sectorMap
      ensures Valid()
      ensures Config() == c
      ensures sector == old(sector) && angle == old(angle)
    {
      forall i | 0 <= i < sectorMap.Length {
        sectorMap[i] := c.sectorMap[i];
      }
      sectorMapCalibrated := c.sectorMapCalibrated;
      assert sectorMap[..] == c.sectorMap;
    }
  }

  /** The calibration lifecycle as a calibration routine drives it: clear,
      fill the table through the raw pointer, mark calibrated. Afterwards a
      tick on code `s` yields sector `s` and the entry written for it. */
  method Calibrate(h: HallEncoder, entries: SectorMap, gpioIn: bv32)
    returns (calibrated: bool, s: bv8, a: Int16)
    requires h.Valid()
    modifies h, h.sectorMap
    ensures h.Valid()
    ensures h.Config() == HallConfig(entries, true)
    ensures calibrated
    ensures s == SectorOf(gpioIn) && a == entries[s] as int
  {
    h.ClearSectorMap();
    var p := h.GetSectorMapPtr();
    for i := 0 to 8
      invariant h.Valid() && p == h.sectorMap
      invariant forall j :: 0 <= j < i ==> p[j] == entries[j]
    {
      p[i] := entries[i];
    }
    assert h.sectorMap[..] == entries;
    h.SetSectorMapCalibrated();
    calibrated := h.SectorMapIsCalibrated();
    h.UpdateAngle(gpioIn, true);
    s := h.GetSector();
    a := h.GetAngle();
  }

  /** Clearing is idempotent: a second clear finds and leaves the same
      configuration as the first. */
  method ClearTwice(h: HallEncoder) returns (once: HallConfig, twice: HallConfig)
    requires h.Valid()
    modifies h, h.sectorMap
    ensures h.Valid()
    ensures once == twice == HallConfig(ClearedMap, false)
    ensures h.sector == old(h.sector) && h.angle == old(h.angle)
  {
    h.ClearSectorMap();
    once := h.GetConfig();
    h.ClearSectorMap();
    twice := h.GetConfig();
  }

  /** Saving the configuration and restoring it later brings back exactly
      the saved configuration, whatever happened to the table in between;
      the restore itself leaves the sector decoded by the last tick alone.
      `saved` is a copy of the record, not the C function's pointer to the
      live record, through which the clear would also be seen. */
  method SaveRestore(h: HallEncoder, gpioIn: bv32) returns (saved: HallConfig, restored: HallConfig)
    requires h.Valid()
    modifies h, h.sectorMap
    ensures h.Valid()
    ensures saved == old(h.Config()) && restored == saved
    ensures h.Config() == saved
    ensures h.sector == SectorOf(gpioIn)
  {
    saved := h.GetConfig();
    h.ClearSectorMap();
    h.UpdateAngle(gpioIn, false);
    h.RestoreConfig(saved);
    restored := h.GetConfig();
  }
}
