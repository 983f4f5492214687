/**
 * The floppy controller card of disk.c: four byte registers and a card
 * presence byte behind a low-nibble port decode, and a two-drive table of
 * mounted images classified by file size.
 *
 * A disk image file is represented by what opening it yields: nothing when
 * the open fails, otherwise its size in bytes.
 */
module Disk {
  import opened Types

  datatype DiskType = DiskNone | Disk525SS | Disk525DS | Disk35DS

  /**
   * The state of a drive's `FILE *`: null, an open image of the given size,
   * or a pointer whose file has been closed but which was not cleared.
   */
  datatype Handle = NoFile | Open(size: nat) | Closed

  const Size525SS: nat := 204800
  const Size525DS: nat := 409600
  const Size35DS: nat := 819200

  /** The byte the card answers on nibble 0xF to show that it is present. */
  const CardPresent: Byte := 0x10
  /** The byte read from a nibble the card does not decode. */
  const Unmapped: Byte := 255

  /** Image kind by file size; any size but the three known ones is not a disk image. */
  function Classify(size: nat): (t: DiskType)
    ensures t != DiskNone <==> size == Size525SS || size == Size525DS || size == Size35DS
    ensures t == Disk525SS <==> size == Size525SS
    ensures t == Disk525DS <==> size == Size525DS
    ensures t == Disk35DS <==> size == Size35DS
  {
    if size == Size525SS then Disk525SS
    else if size == Size525DS then Disk525DS
    else if size == Size35DS then Disk35DS
    else DiskNone
  }

  /** A drive slot is consistent: a live image has the kind its size gives, any other slot has none. */
  predicate SlotOk(h: Handle, t: DiskType) {
    match h
    case Open(s) => t == Classify(s) && t != DiskNone
    case _ => t == DiskNone
  }

  predicate IsDrive(drive: int) { drive == 0 || drive == 1 }

  /** The reasons `Insert` refuses an image, in the order they are tested. */
  datatype Refusal = NoName | NoSuchDrive | Occupied | OpenFailed | NotAnImage

  /** Why inserting would be refused, given the two drive slots, or None when the image is mounted. */
  function InsertRefusal(drive: int, name: Option<string>, image: Option<nat>, slots: seq<Handle>): (r: Option<Refusal>)
    requires |slots| == 2
    ensures r.None? <==> name.Some? && name.value != [] && IsDrive(drive) && slots[drive] == NoFile &&
                         image.Some? && Classify(image.value) != DiskNone
    ensures r == Some(NoName) <==> name.None? || name.value == []
    ensures r == Some(Occupied) ==> IsDrive(drive) && slots[drive] != NoFile
  {
    if name.None? || name.value == [] then Some(NoName)
    else if !IsDrive(drive) then Some(NoSuchDrive)
    else if slots[drive] != NoFile then Some(Occupied)
    else if image.None? then Some(OpenFailed)
    else if Classify(image.value) == DiskNone then Some(NotAnImage)
    else None
  }

  class FloppyController {
    var trk: Byte
    var sec: Byte
    var dat: Byte
    var stat: Byte
    var disk: array<Handle>
    var diskType: array<DiskType>

    ghost predicate Valid()
      reads this, disk, diskType
    {
      disk.Length == 2 && diskType.Length == 2 &&
      stat == 0 &&
      forall d :: 0 <= d < 2 ==> SlotOk(disk[d], diskType[d])
    }

    /** The controller as the program starts: registers clear, both drives empty. */
    constructor ()
      ensures Valid() && fresh(disk) && fresh(diskType)
      ensures trk == 0 && sec == 0 && dat == 0
      ensures disk[..] == [NoFile, NoFile] && diskType[..] == [DiskNone, DiskNone]
    {
      trk, sec, dat, stat := 0, 0, 0, 0;
      disk := new Handle[2](_ => NoFile);
      diskType := new DiskType[2](_ => DiskNone);
    }

    /** `disksys_read`: only the low nibble of the port is decoded; nothing changes. */
    method Read(port: Byte) returns (v: Byte)
      requires Valid()
      ensures port % 16 == 0x0 ==> v == stat && v == 0
      ensures port % 16 == 0x1 ==> v == trk
      ensures port % 16 == 0x2 ==> v == sec
      ensures port % 16 == 0x3 ==> v == dat
      ensures port % 16 == 0xF ==> v == CardPresent
      ensures port % 16 !in {0x0, 0x1, 0x2, 0x3, 0xF} ==> v == Unmapped
    {
      var n := port % 16;
      if n == 0x0 {
        v := stat;
      } else if n == 0x1 {
        v := trk;
      } else if n == 0x2 {
        v := sec;
      } else if n == 0x3 {
        v := dat;
      } else if n == 0xF {
        v := CardPresent;
      } else {
        v := Unmapped;
      }
    }

    /**
     * `disksys_write`: nibbles 1, 2 and 3 load the track, sector and data
     * registers; the command nibble 0 is only logged, and every other nibble
     * is ignored.
     */
    method Write(port: Byte, data: Byte)
      requires Valid()
      modifies this`trk, this`sec, this`dat
      ensures Valid()
      ensures trk == (if port % 16 == 0x1 then data else old(trk))
      ensures sec == (if port % 16 == 0x2 then data else old(sec))
      ensures dat == (if port % 16 == 0x3 then data else old(dat))
    {
      var n := port % 16;
      if n == 0x1 {
        trk := data;
      } else if n == 0x2 {
        sec := data;
      } else if n == 0x3 {
        dat := data;
      }
    }

    /** `disksys_eject`: an occupied drive is emptied; anything else is refused. */
    method Eject(drive: int)
      requires Valid()
      modifies disk, diskType
      ensures Valid()
      ensures !IsDrive(drive) ==> disk[..] == old(disk[..]) && diskType[..] == old(diskType[..])
      ensures IsDrive(drive) && old(disk[drive]) == NoFile ==>
        disk[..] == old(disk[..]) && diskType[..] == old(diskType[..])
      ensures IsDrive(drive) ==> disk[..] == old(disk[..])[drive := NoFile]
      ensures IsDrive(drive) ==> diskType[..] == old(diskType[..])[drive := DiskNone]
    {
      if !IsDrive(drive) {
        return;
      }
      if disk[drive] != NoFile {
        disk[drive] := NoFile;
        diskType[drive] := DiskNone;
      }
    }

    /**
     * `disksys_insert`: mounts `image` in `drive`, returning 0, or returns -1
     * with the drive table untouched when the name is missing or empty, the
     * drive does not exist or is occupied, the open fails, or the size is not
     * one of the three image sizes.
     */
    method Insert(drive: int, name: Option<string>, image: Option<nat>) returns (rc: int)
      requires Valid()
      modifies disk, diskType
      ensures Valid()
      ensures rc == 0 || rc == -1
      ensures rc == 0 <==> InsertRefusal(drive, name, image, old(disk[..])).None?
      ensures rc == -1 ==> disk[..] == old(disk[..]) && diskType[..] == old(diskType[..])
      ensures rc == 0 ==> disk[..] == old(disk[..])[drive := Open(image.value)]
      ensures rc == 0 ==> diskType[..] == old(diskType[..])[drive := Classify(image.value)]
    {
      if name.None? || name.value == [] {
        return -1;
      }
      if !IsDrive(drive) {
        return -1;
      }
      if disk[drive] != NoFile {
        return -1;
      }
      if image.None? {
        return -1;
      }
      var kind := Classify(image.value);
      if kind == DiskNone {
        return -1;
      }
      disk[drive] := Open(image.value);
      diskType[drive] := kind;
      rc := 0;
    }

    /** `disksys_init`: both drives empty. */
    method Init()
      requires Valid()
      modifies disk, diskType
      ensures Valid()
      ensures disk[..] == [NoFile, NoFile] && diskType[..] == [DiskNone, DiskNone]
    {
      disk[0], disk[1] := NoFile, NoFile;
      diskType[0], diskType[1] := DiskNone, DiskNone;
    }

    /**
     * `disksys_deinit`: every open image is closed and both kinds are reset,
     * but the file pointers are left as they were, so a closed drive still
     * reads as occupied.
     */
    method Deinit()
      requires Valid()
      modifies disk, diskType
      ensures Valid()
      ensures diskType[..] == [DiskNone, DiskNone]
      ensures forall d :: 0 <= d < 2 ==> disk[d] == (if old(disk[d]) == NoFile then NoFile else Closed)
    {
      if disk[0] != NoFile {
        disk[0] := Closed;
      }
      if disk[1] != NoFile {
        disk[1] := Closed;
      }
      diskType[0], diskType[1] := DiskNone, DiskNone;
    }
  }

  /** Writing register nibble 1, 2 or 3 and reading any port with the same nibble returns the byte written. */
  method RegisterRoundTrip(c: FloppyController, wport: Byte, rport: Byte, data: Byte) returns (v: Byte)
    requires c.Valid()
    requires wport % 16 in {1, 2, 3} && rport % 16 == wport % 16
    modifies c
    ensures v == data
  {
    c.Write(wport, data);
    v := c.Read(rport);
  }

  /** A freshly built controller accepts a 5.25" single-sided image in drive 0 and refuses a second one there. */
  method MountScenario() returns (first: int, second: int, kind: DiskType)
    ensures first == 0 && second == -1 && kind == Disk525SS
  {
    var c := new FloppyController();
    first := c.Insert(0, Some("boot.img"), Some(Size525SS));
    second := c.Insert(0, Some("other.img"), Some(Size525DS));
    kind := c.diskType[0];
  }
}
