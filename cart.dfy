/**
 * The cartridge: the ROM image, the external RAM banks and the registers of
 * the bank controllers the emulator supports (no controller, MBC1 and
 * MBC3).  The controller state is the class Cartridge, whose methods update
 * it in place; each method is tied to a pure function on CartState, and the
 * lemmas below those functions state what the controllers promise.
 *
 * The original context's bank addresses become indices: the switchable ROM
 * window is a bank number (the window starts at bank * 0x4000) and the
 * active RAM bank is a slot of `ramBanks`, whose unallocated slots are None.
 * Writing the battery file is recorded in `saves`; opening and reading files
 * is left to the caller, which passes their contents in.
 */
module Cart {
  import opened Common

  // ---------------------------------------------------------------------
  // The header fields the model reads

  /** Offset of the controller type code in the image (header at 0x100). */
  const TypeAt := 0x147
  /** Offset of the RAM size code. */
  const RamSizeAt := 0x149
  /** Offset of title[15], which cart_load overwrites with 0. */
  const TitleEndAt := 0x143
  /** The header bytes the checksum runs over. */
  const ChecksumFrom := 0x134
  const ChecksumTo := 0x14C

  /** One external RAM bank is 8 KiB. */
  const BankSize := 0x2000

  /** cart_mbc1: type codes 0x01-0x03. */
  predicate IsMbc1(t: u8) { 0x01 <= t <= 0x03 }

  /** cart_mbc3: type codes 0x0F-0x13. */
  predicate IsMbc3(t: u8) { 0x0F <= t <= 0x13 }

  /** cart_battery: only MBC1+RAM+BATTERY (0x03) is treated as battery-backed. */
  predicate IsBattery(t: u8) { t == 0x03 }

  /** The type codes have disjoint meanings, and only an MBC1 type has a battery. */
  lemma TypeCodes(t: u8)
    ensures !(IsMbc1(t) && IsMbc3(t))
    ensures IsBattery(t) ==> IsMbc1(t)
    ensures IsMbc3(t) ==> !IsBattery(t)
  {
  }

  // ---------------------------------------------------------------------
  // The state of the cartridge

  /** One battery file written: its path and the 8 KiB image. */
  datatype Save = Save(path: string, image: seq<u8>)

  /** cart_context, with the ROM and RAM bank addresses replaced by bank indices. */
  datatype CartState = CartState(
    filename: string,
    rom: seq<u8>,
    ramEnabled: bool,
    ramBanking: bool,
    romWindow: nat,
    bankingMode: u8,
    romBankValue: u8,
    ramBankValue: u8,
    ramBank: nat,
    ramBanks: seq<Option<seq<u8>>>,
    battery: bool,
    needSave: bool,
    saves: seq<Save>)

  /**
   * Sixteen RAM slots, every allocated bank 8 KiB long, the active slot
   * among them; the RAM bank register holds two bits.
   */
  predicate Valid(c: CartState)
  {
    |c.ramBanks| == 16 && c.ramBank < 16 && c.ramBankValue <= 3
    && (forall i :: 0 <= i < 16 && c.ramBanks[i].Some? ==> |c.ramBanks[i].value| == BankSize)
  }

  /** The image holds the whole header (its type and RAM size codes, the checksummed range). */
  predicate HasHeader(c: CartState)
  {
    |c.rom| > ChecksumTo
  }

  /** The controller type code of the loaded image. */
  function Type(c: CartState): u8
    requires HasHeader(c)
  {
    c.rom[TypeAt]
  }

  /** Whether ram_bank points at a bank, rather than being null. */
  predicate ActivePresent(c: CartState)
    requires Valid(c)
  {
    c.ramBanks[c.ramBank].Some?
  }

  /** External RAM at 0xA000-0xBFFF: the mask test both controllers use. */
  predicate InRam(a: u16)
  {
    a & 0xE000 == 0xA000
  }

  /** The byte offset inside a RAM bank of an address in 0xA000-0xBFFF. */
  function RamOffset(a: u16): (off: nat)
    requires InRam(a)
    ensures off < BankSize
  {
    InRamBounds(a);
    a as nat - 0xA000
  }

  /** A RAM address lies in 0xA000-0xBFFF. */
  lemma InRamBounds(a: u16)
    requires InRam(a)
    ensures 0xA000 <= a as nat < 0xC000
  {
    assert 0xA000 <= a < 0xC000;
  }

  /** The image offset rom_bank_x[address - 0x4000] reads. */
  function WindowIndex(c: CartState, a: u16): nat
    requires 0x4000 <= a
  {
    c.romWindow * 0x4000 + (a - 0x4000) as nat
  }

  // ---------------------------------------------------------------------
  // cart_read

  /** Whether the image byte a read goes to exists; the code never checks this. */
  predicate Readable(c: CartState, a: u16)
    requires HasHeader(c)
  {
    (a < 0x4000 ==> (a as nat) < |c.rom|)
    && ((IsMbc1(Type(c)) || IsMbc3(Type(c))) && 0x4000 <= a && !InRam(a) ==> WindowIndex(c, a) < |c.rom|)
  }

  /**
   * cart_read: bank 0 below 0x4000; on MBC1 and MBC3, gated RAM at
   * 0xA000-0xBFFF and the switchable window elsewhere (the two controllers
   * share this code); on a cartridge without controller the image itself,
   * 0xFF past its end; 0xFF for any other type.
   */
  function Read(c: CartState, a: u16): u8
    requires Valid(c) && HasHeader(c) && Readable(c, a)
  {
    if a < 0x4000 then c.rom[a]
    else if IsMbc1(Type(c)) || IsMbc3(Type(c)) then
      if InRam(a) then
        if !c.ramEnabled || !ActivePresent(c) then 0xFF
        else c.ramBanks[c.ramBank].value[RamOffset(a)]
      else c.rom[WindowIndex(c, a)]
    else if Type(c) == 0x00 then
      if (a as nat) < |c.rom| then c.rom[a] else 0xFF
    else 0xFF
  }

  // ---------------------------------------------------------------------
  // cart_write

  /** The battery file cart_battery_save writes: the active bank under BatteryPath. */
  function SaveBattery(c: CartState): CartState
    requires Valid(c) && ActivePresent(c)
  {
    c.(saves := c.saves + [Save(BatteryPath(c.filename), c.ramBanks[c.ramBank].value)])
  }

  /** The RAM-enable latch: set by a low nibble of 0xA, cleared by anything else. */
  function EnableRam(c: CartState, v: u8): CartState
  {
    c.(ramEnabled := v & 0x0F == 0x0A)
  }

  /** A write to 0xA000-0xBFFF: dropped when RAM is disabled or absent; marks a battery cart as unsaved. */
  function RamWrite(c: CartState, a: u16, v: u8): CartState
    requires Valid(c) && InRam(a)
  {
    if !c.ramEnabled || !ActivePresent(c) then c
    else
      var bank := c.ramBanks[c.ramBank].value;
      c.(ramBanks := c.ramBanks[c.ramBank := Some(bank[RamOffset(a) := v])],
         needSave := if c.battery then true else c.needSave)
  }

  /** MBC1 ROM bank number: a raw 0 becomes 1, and only then is it cut to 5 bits. */
  function Mbc1RomBank(v: u8): u8
  {
    (if v == 0 then 1 else v) & 0x1F
  }

  /** MBC3 ROM bank number: cut to 7 bits, and a 0 then becomes 1. */
  function Mbc3RomBank(v: u8): u8
  {
    var bank := v & 0x7F;
    if bank == 0 then 1 else bank
  }

  /**
   * Whether a write can be carried out: an MBC1 RAM bank switch that has to
   * save the battery first needs an active bank to write out.
   */
  predicate Writable(c: CartState, a: u16)
    requires Valid(c) && HasHeader(c)
  {
    IsMbc1(Type(c)) && a & 0xE000 == 0x4000 && c.ramBanking && c.needSave ==> ActivePresent(c)
  }

  /**
   * The MBC1 half of cart_write.  The five address tests are applied in the
   * order of the code; at most one of them holds, so the bank value the ROM
   * bank test rewrites is never seen by the others.
   */
  function Mbc1Write(c: CartState, a: u16, v: u8): CartState
    requires Valid(c)
    requires a & 0xE000 == 0x4000 && c.ramBanking && c.needSave ==> ActivePresent(c)
  {
    if a < 0x2000 then EnableRam(c, v)
    else if a & 0xE000 == 0x2000 then SelectRomBank(c, Mbc1RomBank(v))
    else if a & 0xE000 == 0x4000 then Mbc1RamBank(c, v)
    else if a & 0xE000 == 0x6000 then Mbc1Mode(c, v)
    else if InRam(a) then RamWrite(c, a, v)
    else c
  }

  /** A ROM bank number written: the register and the window both take it. */
  function SelectRomBank(c: CartState, bank: u8): CartState
  {
    c.(romBankValue := bank, romWindow := bank as nat)
  }

  /**
   * The MBC1 RAM bank register always takes the low two bits; the active
   * bank follows only in RAM banking mode, after saving the battery when a
   * save is due.
   */
  function Mbc1RamBank(c: CartState, v: u8): CartState
    requires Valid(c)
    requires c.ramBanking && c.needSave ==> ActivePresent(c)
  {
    var c' := c.(ramBankValue := v & 0x03);
    if c.ramBanking then
      (if c.needSave then SaveBattery(c') else c').(ramBank := (v & 0x03) as nat)
    else c'
  }

  /** The MBC1 banking mode: bit 0; switching to RAM banking re-applies the RAM bank register. */
  function Mbc1Mode(c: CartState, v: u8): CartState
  {
    var c' := c.(bankingMode := v & 1, ramBanking := v & 1 != 0);
    if v & 1 != 0 then c'.(ramBank := c.ramBankValue as nat) else c'
  }

  /** The MBC3 half of cart_write; 0x6000-0x7FFF (the clock latch) is ignored. */
  function Mbc3Write(c: CartState, a: u16, v: u8): CartState
    requires Valid(c)
  {
    if a < 0x2000 then EnableRam(c, v)
    else if a < 0x4000 then SelectRomBank(c, Mbc3RomBank(v))
    else if a < 0x6000 then
      c.(ramBankValue := v & 0x03, ramBank := (v & 0x03) as nat)
    else if InRam(a) then RamWrite(c, a, v)
    else c
  }

  /** cart_write: by controller; a cartridge without controller ignores writes. */
  function Write(c: CartState, a: u16, v: u8): CartState
    requires Valid(c) && HasHeader(c) && Writable(c, a)
  {
    if IsMbc1(Type(c)) then Mbc1Write(c, a, v)
    else if IsMbc3(Type(c)) then Mbc3Write(c, a, v)
    else c
  }

  // ---------------------------------------------------------------------
  // Banking setup, the battery file and loading

  /** The condition cart_setup_banking tests for slot i, per RAM size code. */
  predicate Allocated(code: u8, i: nat)
  {
    (code == 2 && i == 0) || (code == 3 && i < 4) || (code == 4 && i < 16) || (code == 5 && i < 8)
  }

  /** The number of 8 KiB banks a RAM size code allocates: 2 -> 1, 3 -> 4, 4 -> 16, 5 -> 8. */
  function BankCount(code: u8): nat
  {
    match code
    case 2 => 1
    case 3 => 4
    case 4 => 16
    case 5 => 8
    case _ => 0
  }

  /** The slots cart_setup_banking allocates are exactly the first BankCount(code). */
  lemma AllocatedPrefix(code: u8, i: nat)
    requires i < 16
    ensures Allocated(code, i) <==> i < BankCount(code)
  {
  }

  /** A fresh bank: 8 KiB of zeros. */
  function ZeroBank(): (b: seq<u8>)
    ensures |b| == BankSize
  {
    seq(BankSize, _ => 0)
  }

  /** The sixteen slots after cart_setup_banking. */
  function BanksFor(code: u8): (banks: seq<Option<seq<u8>>>)
    ensures |banks| == 16
  {
    seq(16, i requires 0 <= i < 16 => if Allocated(code, i) then Some(ZeroBank()) else None)
  }

  /** The position of the last `ch` in `s` (strrchr), if any. */
  function LastIndex(s: string, ch: char): (r: Option<nat>)
    ensures r.Some? ==> r.value < |s| && s[r.value] == ch
    ensures r.Some? ==> forall j :: r.value < j < |s| ==> s[j] != ch
    ensures r.None? ==> forall j :: 0 <= j < |s| ==> s[j] != ch
  {
    if |s| == 0 then None
    else if s[|s| - 1] == ch then Some(|s| - 1)
    else LastIndex(s[..|s| - 1], ch)
  }

  /** Where the file name starts: after the last '/', else after the last '\\', else at 0. */
  function NameStart(f: string): (k: nat)
    ensures k <= |f|
  {
    match LastIndex(f, '/')
    case Some(i) => i + 1
    case None =>
      match LastIndex(f, '\\')
      case Some(i) => i + 1
      case None => 0
  }

  /**
   * The save name: the file name up to the last '.' of the whole path.  When
   * that dot lies before the file name, the printf precision is negative and
   * the whole file name is kept.
   */
  function Stem(f: string): string
  {
    var start := NameStart(f);
    match LastIndex(f, '.')
    case Some(dot) => if dot >= start then f[start..dot] else f[start..]
    case None => f[start..]
  }

  /** cart_battery_load / cart_battery_save: the battery file of a ROM path. */
  function BatteryPath(f: string): string
  {
    "../roms/saves/" + Stem(f) + ".battery"
  }

  /** fread of up to 8 KiB of a battery file into a bank: what is there overwrites the start. */
  function LoadImage(bank: seq<u8>, file: seq<u8>): (b: seq<u8>)
    requires |bank| == BankSize
    ensures |b| == BankSize
  {
    var k := if |file| < BankSize then |file| else BankSize;
    file[..k] + bank[k..]
  }

  /** cart_battery_load: a missing file changes nothing, an existing one is read into the active bank. */
  function LoadBattery(c: CartState, file: Option<seq<u8>>): CartState
    requires Valid(c) && (file.Some? ==> ActivePresent(c))
  {
    match file
    case None => c
    case Some(bytes) => c.(ramBanks := c.ramBanks[c.ramBank := Some(LoadImage(c.ramBanks[c.ramBank].value, bytes))])
  }

  /** ctx.filename: the path as snprintf keeps it in 1024 bytes, at most 1023 characters. */
  function KeptName(path: string): (f: string)
    ensures |f| <= 1023 && f <= path
  {
    if |path| <= 1023 then path else path[..1023]
  }

  /** The image as cart_load keeps it: title[15] (offset 0x143) is overwritten with 0. */
  function KeptImage(image: seq<u8>): (rom: seq<u8>)
    requires |image| > ChecksumTo
    ensures |rom| == |image|
  {
    image[TitleEndAt := 0]
  }

  /**
   * What cart_load leaves once the file is open (the name is stored
   * before the file is opened): the kept image, the
   * battery flag from its type, no save due, the banks of its RAM size code,
   * and the battery file read into bank 0 on a battery cartridge.  The bank
   * registers keep whatever they held.
   */
  function Loaded(c: CartState, image: seq<u8>, save: Option<seq<u8>>): CartState
    requires |image| > ChecksumTo
    requires IsBattery(image[TypeAt]) && save.Some? ==> BankCount(image[RamSizeAt]) > 0
    requires c.ramBankValue <= 3
  {
    var c' := SetUp(Installed(c, image));
    AllocatedPrefix(image[RamSizeAt], 0);
    if c'.battery then LoadBattery(c', save) else c'
  }

  /** The opened image installed: kept image, battery flag from its type, no save due. */
  function Installed(c: CartState, image: seq<u8>): (c': CartState)
    requires |image| > ChecksumTo
    ensures HasHeader(c')
  {
    c.(rom := KeptImage(image), battery := IsBattery(image[TypeAt]), needSave := false)
  }

  /** cart_setup_banking: the banks of the RAM size code, bank 0 active, bank 1 in the window. */
  function SetUp(c: CartState): CartState
    requires HasHeader(c)
  {
    c.(ramBanks := BanksFor(c.rom[RamSizeAt]), ramBank := 0, romWindow := 1)
  }

  /** The diagnostic cart_load prints: "PASSED" whenever the low byte of the sum is not zero. */
  predicate PrintedPass(x: u16)
  {
    x & 0xFF != 0
  }

  /** The header checksum loop: x := x - b - 1 over 0x134-0x14C, in 16 bits. */
  function Checksum(rom: seq<u8>, first: nat, last: nat, x: u16): u16
    requires first <= last + 1 && last < |rom|
    decreases last + 1 - first
  {
    if first > last then x else Checksum(rom, first + 1, last, x - rom[first] as u16 - 1)
  }

  // ---------------------------------------------------------------------
  // The cartridge context, updated in place

  /** The static cart_context, with the header read from the image. */
  class Cartridge {
    var filename: string
    var rom: seq<u8>
    var ramEnabled: bool
    var ramBanking: bool
    var romWindow: nat
    var bankingMode: u8
    var romBankValue: u8
    var ramBankValue: u8
    var ramBank: nat
    var ramBanks: seq<Option<seq<u8>>>
    var battery: bool
    var needSave: bool
    var saves: seq<Save>

    function State(): CartState
      reads this
    {
      CartState(filename, rom, ramEnabled, ramBanking, romWindow, bankingMode, romBankValue,
                ramBankValue, ramBank, ramBanks, battery, needSave, saves)
    }

    /** The static context before cart_load: everything zero, no RAM allocated. */
    constructor ()
      ensures State() == CartState("", [], false, false, 0, 0, 0, 0, 0, seq(16, _ => None), false, false, [])
    {
      filename := "";
      rom := [];
      ramEnabled := false;
      ramBanking := false;
      romWindow := 0;
      bankingMode := 0;
      romBankValue := 0;
      ramBankValue := 0;
      ramBank := 0;
      ramBanks := seq(16, _ => None);
      battery := false;
      needSave := false;
      saves := [];
    }

    /** cart_need_save. */
    function NeedSave(): (r: bool)
      reads this
      ensures r == State().needSave
    {
      needSave
    }

    /** cart_read. */
    function ReadByte(a: u16): (v: u8)
      reads this
      requires Valid(State()) && HasHeader(State()) && Readable(State(), a)
      ensures v == Read(State(), a)
    {
      if a < 0x4000 then rom[a]
      else if IsMbc1(rom[TypeAt]) || IsMbc3(rom[TypeAt]) then
        if InRam(a) then
          if !ramEnabled || ramBanks[ramBank].None? then 0xFF
          else ramBanks[ramBank].value[RamOffset(a)]
        else rom[WindowIndex(State(), a)]
      else if rom[TypeAt] == 0x00 then
        if (a as nat) < |rom| then rom[a] else 0xFF
      else 0xFF
    }

    /** cart_battery_save: the active bank goes to the battery file. */
    method BatterySave()
      requires Valid(State()) && ActivePresent(State())
      modifies this
      ensures State() == SaveBattery(old(State()))
    {
      saves := saves + [Save(BatteryPath(filename), ramBanks[ramBank].value)];
    }

    /** cart_battery_load: a missing file changes nothing; otherwise it is read into the active bank. */
    method BatteryLoad(file: Option<seq<u8>>)
      requires Valid(State()) && (file.Some? ==> ActivePresent(State()))
      modifies this
      ensures State() == LoadBattery(old(State()), file)
    {
      if file.Some? {
        ramBanks := ramBanks[ramBank := Some(LoadImage(ramBanks[ramBank].value, file.value))];
      }
    }

    /** A write to external RAM, shared by both controllers. */
    method RamStore(a: u16, v: u8)
      requires Valid(State()) && InRam(a)
      modifies this
      ensures State() == RamWrite(old(State()), a, v)
    {
      if !ramEnabled {
        return;
      }
      if ramBanks[ramBank].None? {
        return;
      }
      ramBanks := ramBanks[ramBank := Some(ramBanks[ramBank].value[RamOffset(a) := v])];
      if battery {
        needSave := true;
      }
    }

    /** cart_write on an MBC1 cartridge. */
    method WriteMbc1(a: u16, v: u8)
      requires Valid(State())
      requires a & 0xE000 == 0x4000 && ramBanking && needSave ==> ActivePresent(State())
      modifies this
      ensures State() == Mbc1Write(old(State()), a, v)
    {
      if a < 0x2000 {
        ramEnabled := v & 0x0F == 0x0A;
      }
      if a & 0xE000 == 0x2000 {
        var bank := if v == 0 then 1 else v;
        bank := bank & 0x1F;
        SetRomBank(bank);
      }
      if a & 0xE000 == 0x4000 {
        SetRamBankMbc1(v);
      }
      if a & 0xE000 == 0x6000 {
        SetModeMbc1(v);
      }
      if InRam(a) {
        RamStore(a, v);
      }
    }

    /** rom_bank_value and the window it selects. */
    method SetRomBank(bank: u8)
      modifies this
      ensures State() == SelectRomBank(old(State()), bank)
    {
      romBankValue := bank;
      romWindow := romBankValue as nat;
    }

    /** The MBC1 RAM bank register (0x4000-0x5FFF). */
    method SetRamBankMbc1(v: u8)
      requires Valid(State())
      requires ramBanking && needSave ==> ActivePresent(State())
      modifies this
      ensures State() == Mbc1RamBank(old(State()), v)
    {
      ramBankValue := v & 0x03;
      if ramBanking {
        if needSave {
          BatterySave();
        }
        ramBank := ramBankValue as nat;
      }
    }

    /** The MBC1 banking mode register (0x6000-0x7FFF). */
    method SetModeMbc1(v: u8)
      modifies this
      ensures State() == Mbc1Mode(old(State()), v)
    {
      bankingMode := v & 1;
      ramBanking := bankingMode != 0;
      if ramBanking {
        ramBank := ramBankValue as nat;
      }
    }

    /** cart_write on an MBC3 cartridge. */
    method WriteMbc3(a: u16, v: u8)
      requires Valid(State())
      modifies this
      ensures State() == Mbc3Write(old(State()), a, v)
    {
      if a < 0x2000 {
        ramEnabled := v & 0x0F == 0x0A;
        return;
      }
      if 0x2000 <= a < 0x4000 {
        var bank := v & 0x7F;
        if bank == 0 {
          bank := 1;
        }
        SetRomBank(bank);
        return;
      }
      if 0x4000 <= a < 0x6000 {
        ramBankValue := v & 0x03;
        ramBank := ramBankValue as nat;
        return;
      }
      if InRam(a) {
        RamStore(a, v);
        return;
      }
    }

    /** cart_write. */
    method WriteByte(a: u16, v: u8)
      requires Valid(State()) && HasHeader(State()) && Writable(State(), a)
      modifies this
      ensures State() == Write(old(State()), a, v)
    {
      var kind := rom[TypeAt];
      if IsMbc1(kind) {
        WriteMbc1(a, v);
      }
      if IsMbc3(kind) {
        WriteMbc3(a, v);
      }
    }

    /**
     * cart_load, given the file's contents (None when it cannot be opened)
     * and those of the battery file; `passed` is the checksum verdict it
     * prints.  Only a file that cannot be opened makes it fail.
     */
    method Load(path: string, file: Option<seq<u8>>, save: Option<seq<u8>>) returns (ok: bool, passed: bool)
      requires file.Some? ==> |file.value| > ChecksumTo
      requires file.Some? && IsBattery(file.value[TypeAt]) && save.Some? ==> BankCount(file.value[RamSizeAt]) > 0
      requires ramBankValue <= 3
      modifies this
      ensures ok <==> file.Some?
      ensures !ok ==> State() == old(State()).(filename := KeptName(path))
      ensures ok ==> State() == Loaded(old(State()).(filename := KeptName(path)), file.value, save)
      ensures ok ==> passed == PrintedPass(Checksum(KeptImage(file.value), ChecksumFrom, ChecksumTo, 0))
    {
      filename := KeptName(path);
      if file.None? {
        return false, false;
      }
      ghost var named := State();
      Install(file.value);
      SetupBanking();
      assert State() == SetUp(Installed(named, file.value));
      var x := HeaderChecksum(rom);
      passed := PrintedPass(x);
      if battery {
        AllocatedPrefix(rom[RamSizeAt], 0);
        BatteryLoad(save);
      }
      ok := true;
    }

    /** The opened image read in and its header applied. */
    method Install(image: seq<u8>)
      requires |image| > ChecksumTo
      modifies this
      ensures State() == Installed(old(State()), image)
    {
      rom := KeptImage(image);
      battery := IsBattery(rom[TypeAt]);
      needSave := false;
    }

    /**
     * cart_setup_banking: slot i gets a zeroed 8 KiB bank when the RAM size
     * code allocates it; bank 0 becomes active and bank 1 the ROM window.
     */
    method SetupBanking()
      requires HasHeader(State()) && ramBankValue <= 3
      modifies this
      ensures State() == SetUp(old(State()))
      ensures Valid(State())
    {
      var code := rom[RamSizeAt];
      var banks: seq<Option<seq<u8>>> := [];
      var i := 0;
      while i < 16
        invariant 0 <= i <= 16
        invariant |banks| == i
        invariant forall j :: 0 <= j < i ==> banks[j] == BanksFor(code)[j]
      {
        if Allocated(code, i) {
          banks := banks + [Some(ZeroBank())];
        } else {
          banks := banks + [None];
        }
        i := i + 1;
      }
      ramBanks := banks;
      ramBank := 0;
      romWindow := 1;
    }
  }

  /** The header checksum loop of cart_load, computed step by step. */
  method HeaderChecksum(rom: seq<u8>) returns (x: u16)
    requires |rom| > ChecksumTo
    ensures x == Checksum(rom, ChecksumFrom, ChecksumTo, 0)
  {
    x := 0;
    var i := ChecksumFrom;
    while i <= ChecksumTo
      invariant ChecksumFrom <= i <= ChecksumTo + 1
      invariant Checksum(rom, ChecksumFrom, ChecksumTo, 0) == Checksum(rom, i, ChecksumTo, x)
    {
      x := x - rom[i] as u16 - 1;
      i := i + 1;
    }
  }

  // ---------------------------------------------------------------------
  // What the cartridge promises

  /** Bank 0 is always mapped at 0x0000-0x3FFF. */
  lemma ReadBankZero(c: CartState, a: u16)
    requires Valid(c) && HasHeader(c) && Readable(c, a) && a < 0x4000
    ensures Read(c, a) == c.rom[a]
  {
  }

  /** Without a controller the image is read directly, and 0xFF past its end. */
  lemma ReadRomOnly(c: CartState, a: u16)
    requires Valid(c) && HasHeader(c) && Readable(c, a) && Type(c) == 0x00 && 0x4000 <= a
    ensures Read(c, a) == if (a as nat) < |c.rom| then c.rom[a] else 0xFF
  {
  }

  /** A type no controller handles reads as open bus above bank 0. */
  lemma ReadUnsupported(c: CartState, a: u16)
    requires Valid(c) && HasHeader(c) && Readable(c, a) && 0x4000 <= a
    requires Type(c) != 0x00 && !IsMbc1(Type(c)) && !IsMbc3(Type(c))
    ensures Read(c, a) == 0xFF
  {
  }

  /** On MBC1 and MBC3, 0x4000-0x7FFF reads the selected bank: bank * 0x4000 onwards. */
  lemma ReadWindow(c: CartState, a: u16)
    requires Valid(c) && HasHeader(c) && Readable(c, a) && 0x4000 <= a < 0x8000
    requires IsMbc1(Type(c)) || IsMbc3(Type(c))
    ensures Read(c, a) == c.rom[c.romWindow * 0x4000 + (a as nat - 0x4000)]
  {
  }

  /** Disabled or absent RAM reads as 0xFF. */
  lemma RamGatedRead(c: CartState, a: u16)
    requires Valid(c) && HasHeader(c) && Readable(c, a) && InRam(a)
    requires IsMbc1(Type(c)) || IsMbc3(Type(c))
    requires !c.ramEnabled || !ActivePresent(c)
    ensures Read(c, a) == 0xFF
  {
  }

  /** Disabled or absent RAM ignores writes. */
  lemma RamGatedWrite(c: CartState, a: u16, v: u8)
    requires Valid(c) && HasHeader(c) && Writable(c, a) && InRam(a)
    requires !c.ramEnabled || !ActivePresent(c)
    ensures Write(c, a, v) == c
  {
  }

  /** Every write keeps the slots well formed. */
  lemma WriteValid(c: CartState, a: u16, v: u8)
    requires Valid(c) && HasHeader(c) && Writable(c, a)
    ensures Valid(Write(c, a, v)) && Write(c, a, v).rom == c.rom
  {
    if InRam(a) {
      RamWriteValid(c, a, v);
    }
    if IsMbc1(Type(c)) {
      Mbc1WriteValid(c, a, v);
    } else if IsMbc3(Type(c)) {
      Mbc3WriteValid(c, a, v);
    }
  }

  /** The MBC1 half keeps the slots well formed. */
  lemma Mbc1WriteValid(c: CartState, a: u16, v: u8)
    requires Valid(c)
    requires a & 0xE000 == 0x4000 && c.ramBanking && c.needSave ==> ActivePresent(c)
    ensures Valid(Mbc1Write(c, a, v)) && Mbc1Write(c, a, v).rom == c.rom
  {
    if InRam(a) {
      RamWriteValid(c, a, v);
    }
  }

  /** The MBC3 half keeps the slots well formed. */
  lemma Mbc3WriteValid(c: CartState, a: u16, v: u8)
    requires Valid(c)
    ensures Valid(Mbc3Write(c, a, v)) && Mbc3Write(c, a, v).rom == c.rom
  {
    if InRam(a) {
      RamWriteValid(c, a, v);
    }
  }

  /** A RAM write keeps the slots well formed: the bank written keeps its length. */
  lemma RamWriteValid(c: CartState, a: u16, v: u8)
    requires Valid(c) && InRam(a)
    ensures Valid(RamWrite(c, a, v)) && RamWrite(c, a, v).rom == c.rom
  {
  }

  /**
   * An enabled RAM write stores the byte at address - 0xA000 of the active
   * bank: it reads back, every other RAM address reads as before, and a
   * save becomes due exactly on a battery cartridge.
   */
  lemma RamReadAfterWrite(c: CartState, a: u16, v: u8, b: u16)
    requires Valid(c) && HasHeader(c) && Writable(c, a) && InRam(a) && InRam(b)
    requires IsMbc1(Type(c)) || IsMbc3(Type(c))
    requires c.ramEnabled && ActivePresent(c)
    ensures Valid(Write(c, a, v)) && HasHeader(Write(c, a, v))
    ensures Read(Write(c, a, v), b) == if b == a then v else Read(c, b)
    ensures Write(c, a, v).needSave == (c.needSave || c.battery)
  {
    WriteInRam(c, a, v);
    RamWriteValid(c, a, v);
    RamWriteReadBack(c, a, v, b);
  }

  /** On MBC1 and MBC3 a write to 0xA000-0xBFFF is a RAM write. */
  lemma WriteInRam(c: CartState, a: u16, v: u8)
    requires Valid(c) && HasHeader(c) && Writable(c, a) && InRam(a)
    requires IsMbc1(Type(c)) || IsMbc3(Type(c))
    ensures Write(c, a, v) == RamWrite(c, a, v)
  {
  }

  /** The bytes of the active bank after an enabled RAM write. */
  lemma RamWriteReadBack(c: CartState, a: u16, v: u8, b: u16)
    requires Valid(c) && InRam(a) && InRam(b) && c.ramEnabled && ActivePresent(c)
    ensures Valid(RamWrite(c, a, v)) && ActivePresent(RamWrite(c, a, v))
    ensures RamWrite(c, a, v).ramEnabled && RamWrite(c, a, v).ramBank == c.ramBank
    ensures RamWrite(c, a, v).ramBanks[c.ramBank].value[RamOffset(b)]
      == if b == a then v else c.ramBanks[c.ramBank].value[RamOffset(b)]
  {
    RamWriteValid(c, a, v);
    var k := RamOffset(b);
    if b != a {
      RamOffsetInjective(a, b);
    }
    RamWriteBytes(c, a, v, k);
  }

  /** The active bank after an enabled RAM write, byte by byte. */
  lemma RamWriteBytes(c: CartState, a: u16, v: u8, k: nat)
    requires Valid(c) && InRam(a) && c.ramEnabled && ActivePresent(c) && k < BankSize
    ensures RamWrite(c, a, v).ramBanks[c.ramBank].Some?
    ensures |RamWrite(c, a, v).ramBanks[c.ramBank].value| == BankSize
    ensures RamWrite(c, a, v).ramBanks[c.ramBank].value[k]
      == if k == RamOffset(a) then v else c.ramBanks[c.ramBank].value[k]
  {
  }

  /** Distinct RAM addresses have distinct offsets in the bank. */
  lemma RamOffsetInjective(a: u16, b: u16)
    requires InRam(a) && InRam(b) && a != b
    ensures RamOffset(a) != RamOffset(b)
  {
    if RamOffset(a) == RamOffset(b) {
      NatOfInjective(a, b);
    }
  }

  /** A loaded MBC3 cartridge never marks a save as due, since no MBC3 type has a battery. */
  lemma Mbc3NeverNeedsSave(c: CartState, a: u16, v: u8)
    requires Valid(c) && HasHeader(c) && IsMbc3(Type(c)) && c.battery == IsBattery(Type(c))
    ensures Write(c, a, v).needSave == c.needSave
  {
  }

  /** A write below 0x2000 sets the RAM enable latch on MBC1 and MBC3. */
  lemma EnableLatch(c: CartState, a: u16, v: u8)
    requires Valid(c) && HasHeader(c) && a < 0x2000
    requires IsMbc1(Type(c)) || IsMbc3(Type(c))
    ensures Write(c, a, v) == c.(ramEnabled := v & 0x0F == 0x0A)
  {
  }

  /** MBC1 ROM bank select: the window moves to Mbc1RomBank(v), a bank below 32. */
  lemma Mbc1RomSelect(c: CartState, a: u16, v: u8)
    requires Valid(c) && HasHeader(c) && IsMbc1(Type(c)) && 0x2000 <= a < 0x4000
    ensures Write(c, a, v) == c.(romBankValue := Mbc1RomBank(v), romWindow := Mbc1RomBank(v) as nat)
    ensures Mbc1RomBank(v) < 32
  {
  }

  /**
   * A raw 0 selects bank 1, but a value whose low five bits are zero and
   * which is not itself zero (0x20, 0x40, 0x60, ...) selects bank 0, because
   * the zero test comes before the mask.
   */
  lemma Mbc1BankZero(v: u8)
    ensures Mbc1RomBank(v) == 0 <==> v != 0 && v & 0x1F == 0
    ensures Mbc1RomBank(0) == 1 && Mbc1RomBank(0x20) == 0
  {
  }

  /** MBC3 ROM bank select: the low seven bits, never bank 0. */
  lemma Mbc3RomSelect(c: CartState, a: u16, v: u8)
    requires Valid(c) && HasHeader(c) && IsMbc3(Type(c)) && 0x2000 <= a < 0x4000
    ensures Write(c, a, v).romWindow == Mbc3RomBank(v) as nat
    ensures Mbc3RomBank(v) != 0 && Mbc3RomBank(v) < 0x80
    ensures v & 0x7F != 0 ==> Mbc3RomBank(v) == v & 0x7F
  {
  }

  /**
   * MBC1 RAM bank select: the register always takes the low two bits; the
   * active bank follows only in RAM banking mode.
   */
  lemma Mbc1RamSelect(c: CartState, a: u16, v: u8)
    requires Valid(c) && HasHeader(c) && Writable(c, a) && IsMbc1(Type(c)) && 0x4000 <= a < 0x6000
    ensures Write(c, a, v).ramBankValue == v & 0x03
    ensures Write(c, a, v).ramBank == if c.ramBanking then (v & 0x03) as nat else c.ramBank
  {
  }

  /** An MBC1 RAM bank switch saves the old active bank first when a save is due. */
  lemma Mbc1SwitchSaves(c: CartState, a: u16, v: u8)
    requires Valid(c) && HasHeader(c) && Writable(c, a) && IsMbc1(Type(c)) && 0x4000 <= a < 0x6000
    requires c.ramBanking && c.needSave
    ensures Write(c, a, v).saves == c.saves + [Save(BatteryPath(c.filename), c.ramBanks[c.ramBank].value)]
  {
  }

  /** MBC1 mode 1 re-applies the RAM bank register; mode 0 leaves the active bank where it was. */
  lemma Mbc1ModeSelect(c: CartState, a: u16, v: u8)
    requires Valid(c) && HasHeader(c) && IsMbc1(Type(c)) && 0x6000 <= a < 0x8000
    ensures Write(c, a, v).ramBanking <==> v & 1 == 1
    ensures Write(c, a, v).ramBank == if v & 1 == 1 then c.ramBankValue as nat else c.ramBank
  {
  }

  /** MBC3 switches the active RAM bank immediately. */
  lemma Mbc3RamSelect(c: CartState, a: u16, v: u8)
    requires Valid(c) && HasHeader(c) && IsMbc3(Type(c)) && 0x4000 <= a < 0x6000
    ensures Write(c, a, v).ramBank == (v & 0x03) as nat && Write(c, a, v).ramBankValue == v & 0x03
  {
  }

  /** MBC3 ignores the clock latch range 0x6000-0x7FFF. */
  lemma Mbc3IgnoresLatch(c: CartState, a: u16, v: u8)
    requires Valid(c) && HasHeader(c) && IsMbc3(Type(c)) && 0x6000 <= a < 0x8000
    ensures Write(c, a, v) == c
  {
  }

  /** A cartridge without MBC1 or MBC3 ignores every write. */
  lemma OtherTypesIgnoreWrites(c: CartState, a: u16, v: u8)
    requires Valid(c) && HasHeader(c) && !IsMbc1(Type(c)) && !IsMbc3(Type(c))
    ensures Write(c, a, v) == c
  {
  }

  /** Each RAM size code allocates its banks from slot 0 on, all zero. */
  lemma BanksAllocated(code: u8, i: nat)
    requires i < 16
    ensures BanksFor(code)[i].Some? <==> i < BankCount(code)
    ensures BanksFor(code)[i].Some? ==> BanksFor(code)[i].value == ZeroBank()
  {
    AllocatedPrefix(code, i);
  }

  /** A full battery file read into any bank reproduces the file. */
  lemma LoadFullImage(bank: seq<u8>, file: seq<u8>)
    requires |bank| == BankSize && |file| == BankSize
    ensures LoadImage(bank, file) == file
  {
  }

  /** Saving the active bank and loading that file into a zeroed bank gives the bank back. */
  lemma SaveThenLoad(c: CartState)
    requires Valid(c) && ActivePresent(c)
    ensures var image := SaveBattery(c).saves[|c.saves|].image;
      LoadImage(ZeroBank(), image) == c.ramBanks[c.ramBank].value
  {
    LoadFullImage(ZeroBank(), c.ramBanks[c.ramBank].value);
  }

  /** Loading leaves a well-formed cartridge whose image differs from the file only at title[15]. */
  lemma LoadedShape(c: CartState, image: seq<u8>, save: Option<seq<u8>>)
    requires |image| > ChecksumTo
    requires IsBattery(image[TypeAt]) && save.Some? ==> BankCount(image[RamSizeAt]) > 0
    requires c.ramBankValue <= 3
    ensures Valid(Loaded(c, image, save)) && HasHeader(Loaded(c, image, save))
    ensures |Loaded(c, image, save).rom| == |image|
    ensures forall i :: 0 <= i < |image| && i != TitleEndAt ==> Loaded(c, image, save).rom[i] == image[i]
    ensures Loaded(c, image, save).rom[TitleEndAt] == 0
    ensures !Loaded(c, image, save).needSave && Loaded(c, image, save).ramBank == 0
    ensures Loaded(c, image, save).romWindow == 1
  {
    forall i | 0 <= i < 16 && BanksFor(image[RamSizeAt])[i].Some?
      ensures |BanksFor(image[RamSizeAt])[i].value| == BankSize
    {
      BanksAllocated(image[RamSizeAt], i);
    }
  }

  /** The printed checksum verdict does not depend on the stored checksum byte at 0x14D. */
  lemma VerdictIgnoresStoredChecksum(image: seq<u8>, b: u8)
    requires |image| > 0x14D
    ensures Checksum(image[0x14D := b], ChecksumFrom, ChecksumTo, 0) == Checksum(image, ChecksumFrom, ChecksumTo, 0)
  {
    ChecksumOutside(image, 0x14D, b, ChecksumFrom, 0);
  }

  /** Changing a byte outside the summed range leaves the running checksum alone. */
  lemma {:induction false} ChecksumOutside(image: seq<u8>, k: nat, b: u8, first: nat, x: u16)
    requires ChecksumTo < k < |image| && first <= ChecksumTo + 1
    ensures Checksum(image[k := b], first, ChecksumTo, x) == Checksum(image, first, ChecksumTo, x)
    decreases ChecksumTo + 1 - first
  {
    if first <= ChecksumTo {
      assert image[k := b][first] == image[first];
      ChecksumOutside(image, k, b, first + 1, x - image[first] as u16 - 1);
    }
  }

  /** The battery file of "dir/name.ext" is "../roms/saves/name.battery". */
  lemma BatteryPathOfFile(dir: string, name: string, ext: string)
    requires '/' !in name && '.' !in name && '/' !in ext && '.' !in ext
    ensures BatteryPath(dir + "/" + name + "." + ext) == "../roms/saves/" + name + ".battery"
  {
    var f := dir + "/" + name + "." + ext;
    var slash := |dir|;
    var dot := |dir| + 1 + |name|;
    assert f[slash] == '/' && f[dot] == '.';
    assert forall j :: slash < j < |f| ==> f[j] != '/';
    assert forall j :: dot < j < |f| ==> f[j] != '.';
    LastIndexIs(f, '/', slash);
    LastIndexIs(f, '.', dot);
    assert f[slash + 1..dot] == name;
  }

  /** A position holding `ch` with no `ch` after it is the one strrchr finds. */
  lemma LastIndexIs(s: string, ch: char, k: nat)
    requires k < |s| && s[k] == ch
    requires forall j :: k < j < |s| ==> s[j] != ch
    ensures LastIndex(s, ch) == Some(k)
  {
  }
}
