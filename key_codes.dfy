/**
 * The key-code table of `src/key_codes.rs`: the `KeyCode` enum, its HID usage byte
 * (`From<KeyCode> for u8`), the modifier bitmask and the modifier predicate.
 *
 * Usage values are those of chapter 10 (Keyboard/Keypad page) of the USB HID Usage
 * Tables 1.22, except for the modifiers, which the firmware numbers 0xF0..0xF8 of its own.
 * The modifier bitmask follows the modifier byte of the boot keyboard report
 * (Appendix B.1 of the USB Device Class Definition for HID 1.11).
 */
module KeyCodes {
  import opened Types

  /**
   * The key identities, in the order of the Rust enum (which is `#[repr(u8)]`, so the
   * order is also the discriminant). The empty code `________` is written `Emp`.
   * `EEEEEEEE` and `Sym_BSla` are used by the layouts and the RGB key but are not members
   * of the Rust enum; they are added at the end.
   */
  datatype KeyCode =
    | Emp
    | Ltr_Azzz
    | Ltr_Bzzz
    | Ltr_Czzz
    | Ltr_Dzzz
    | Ltr_Ezzz
    | Ltr_Fzzz
    | Ltr_Gzzz
    | Ltr_Hzzz
    | Ltr_Izzz
    | Ltr_Jzzz
    | Ltr_Kzzz
    | Ltr_Lzzz
    | Ltr_Mzzz
    | Ltr_Nzzz
    | Ltr_Ozzz
    | Ltr_Pzzz
    | Ltr_Qzzz
    | Ltr_Rzzz
    | Ltr_Szzz
    | Ltr_Tzzz
    | Ltr_Uzzz
    | Ltr_Vzzz
    | Ltr_Wzzz
    | Ltr_Xzzz
    | Ltr_Yzzz
    | Ltr_Zzzz
    | Num_1zzz
    | Num_2zzz
    | Num_3zzz
    | Num_4zzz
    | Num_5zzz
    | Num_6zzz
    | Num_7zzz
    | Num_8zzz
    | Num_9zzz
    | Num_0zzz
    | Fun_Entz
    | Fun_Escz
    | Fun_Bksp
    | Fun_Tabz
    | Fun_Spcz
    | Sym_Minz
    | Sym_Equz
    | Sym_LBrk
    | Sym_RBrk
    | Sym_Bszz
    | Sym_Scln
    | Sym_SQut
    | Sym_Tild
    | Sym_Coma
    | Sym_Perd
    | Sym_FSla
    | Fun_Caps
    | Fun_F1zz
    | Fun_F2zz
    | Fun_F3zz
    | Fun_F4zz
    | Fun_F5zz
    | Fun_F6zz
    | Fun_F7zz
    | Fun_F8zz
    | Fun_F9zz
    | Fun_F10z
    | Fun_F11z
    | Fun_F12z
    | Arw_Rght
    | Arw_Left
    | Arw_Down
    | Arw_Upzz
    | Fun_Home
    | Fun_PgUp
    | Fun_Delz
    | Fun_Endz
    | Fun_PgDn
    | Vol_Mute
    | Vol_Upzz
    | Vol_Down
    | Sym_LPar
    | Sym_RPar
    | Mod_L01z
    | Mod_LSft
    | Mod_LCtl
    | Mod_LAlt
    | Mod_LCmd
    | Mod_RCmd
    | Mod_RAlt
    | Mod_RCtl
    | Mod_RSft
    | EEEEEEEE
    | Sym_BSla

  /** The codes that the Rust enum declares (everything but the two added at the end). */
  predicate IsListed(k: KeyCode)
  {
    !k.EEEEEEEE? && !k.Sym_BSla?
  }

  /** The enum discriminant (declaration order); the two added codes come last. */
  function Ordinal(k: KeyCode): nat
  {
    match k
    case Emp => 0
    case Ltr_Azzz => 1
    case Ltr_Bzzz => 2
    case Ltr_Czzz => 3
    case Ltr_Dzzz => 4
    case Ltr_Ezzz => 5
    case Ltr_Fzzz => 6
    case Ltr_Gzzz => 7
    case Ltr_Hzzz => 8
    case Ltr_Izzz => 9
    case Ltr_Jzzz => 10
    case Ltr_Kzzz => 11
    case Ltr_Lzzz => 12
    case Ltr_Mzzz => 13
    case Ltr_Nzzz => 14
    case Ltr_Ozzz => 15
    case Ltr_Pzzz => 16
    case Ltr_Qzzz => 17
    case Ltr_Rzzz => 18
    case Ltr_Szzz => 19
    case Ltr_Tzzz => 20
    case Ltr_Uzzz => 21
    case Ltr_Vzzz => 22
    case Ltr_Wzzz => 23
    case Ltr_Xzzz => 24
    case Ltr_Yzzz => 25
    case Ltr_Zzzz => 26
    case Num_1zzz => 27
    case Num_2zzz => 28
    case Num_3zzz => 29
    case Num_4zzz => 30
    case Num_5zzz => 31
    case Num_6zzz => 32
    case Num_7zzz => 33
    case Num_8zzz => 34
    case Num_9zzz => 35
    case Num_0zzz => 36
    case Fun_Entz => 37
    case Fun_Escz => 38
    case Fun_Bksp => 39
    case Fun_Tabz => 40
    case Fun_Spcz => 41
    case Sym_Minz => 42
    case Sym_Equz => 43
    case Sym_LBrk => 44
    case Sym_RBrk => 45
    case Sym_Bszz => 46
    case Sym_Scln => 47
    case Sym_SQut => 48
    case Sym_Tild => 49
    case Sym_Coma => 50
    case Sym_Perd => 51
    case Sym_FSla => 52
    case Fun_Caps => 53
    case Fun_F1zz => 54
    case Fun_F2zz => 55
    case Fun_F3zz => 56
    case Fun_F4zz => 57
    case Fun_F5zz => 58
    case Fun_F6zz => 59
    case Fun_F7zz => 60
    case Fun_F8zz => 61
    case Fun_F9zz => 62
    case Fun_F10z => 63
    case Fun_F11z => 64
    case Fun_F12z => 65
    case Arw_Rght => 66
    case Arw_Left => 67
    case Arw_Down => 68
    case Arw_Upzz => 69
    case Fun_Home => 70
    case Fun_PgUp => 71
    case Fun_Delz => 72
    case Fun_Endz => 73
    case Fun_PgDn => 74
    case Vol_Mute => 75
    case Vol_Upzz => 76
    case Vol_Down => 77
    case Sym_LPar => 78
    case Sym_RPar => 79
    case Mod_L01z => 80
    case Mod_LSft => 81
    case Mod_LCtl => 82
    case Mod_LAlt => 83
    case Mod_LCmd => 84
    case Mod_RCmd => 85
    case Mod_RAlt => 86
    case Mod_RCtl => 87
    case Mod_RSft => 88
    case EEEEEEEE => 89
    case Sym_BSla => 90
  }

  /**
   * `From<KeyCode> for u8`: the HID usage byte of a code. The catch-all arm of the Rust
   * match maps the two added codes to 0x00. The nine codes `is_modifier` accepts use the
   * firmware's own bytes 0xF0..0xF8 and every other code a byte below them.
   */
  function Usage(k: KeyCode): (b: u8)
    ensures b <= 0xF8
    ensures 0xF0 <= b <==> k in {Mod_L01z, Mod_LSft, Mod_LCtl, Mod_LAlt, Mod_LCmd, Mod_RCmd, Mod_RAlt, Mod_RCtl, Mod_RSft}
  {
    match k
    case Ltr_Azzz => 0x04
    case Ltr_Bzzz => 0x05
    case Ltr_Czzz => 0x06
    case Ltr_Dzzz => 0x07
    case Ltr_Ezzz => 0x08
    case Ltr_Fzzz => 0x09
    case Ltr_Gzzz => 0x0A
    case Ltr_Hzzz => 0x0B
    case Ltr_Izzz => 0x0C
    case Ltr_Jzzz => 0x0D
    case Ltr_Kzzz => 0x0E
    case Ltr_Lzzz => 0x0F
    case Ltr_Mzzz => 0x10
    case Ltr_Nzzz => 0x11
    case Ltr_Ozzz => 0x12
    case Ltr_Pzzz => 0x13
    case Ltr_Qzzz => 0x14
    case Ltr_Rzzz => 0x15
    case Ltr_Szzz => 0x16
    case Ltr_Tzzz => 0x17
    case Ltr_Uzzz => 0x18
    case Ltr_Vzzz => 0x19
    case Ltr_Wzzz => 0x1A
    case Ltr_Xzzz => 0x1B
    case Ltr_Yzzz => 0x1C
    case Ltr_Zzzz => 0x1D
    case Num_1zzz => 0x1E
    case Num_2zzz => 0x1F
    case Num_3zzz => 0x20
    case Num_4zzz => 0x21
    case Num_5zzz => 0x22
    case Num_6zzz => 0x23
    case Num_7zzz => 0x24
    case Num_8zzz => 0x25
    case Num_9zzz => 0x26
    case Num_0zzz => 0x27
    case Fun_Entz => 0x28
    case Fun_Escz => 0x29
    case Fun_Bksp => 0x2A
    case Fun_Tabz => 0x2B
    case Fun_Spcz => 0x2C
    case Sym_Minz => 0x2D
    case Sym_Equz => 0x2E
    case Sym_LBrk => 0x2F
    case Sym_RBrk => 0x30
    case Sym_Bszz => 0x31
    case Sym_Scln => 0x33
    case Sym_SQut => 0x34
    case Sym_Tild => 0x35
    case Sym_Coma => 0x36
    case Sym_Perd => 0x37
    case Sym_FSla => 0x38
    case Fun_Caps => 0x39
    case Fun_F1zz => 0x3A
    case Fun_F2zz => 0x3B
    case Fun_F3zz => 0x3C
    case Fun_F4zz => 0x3D
    case Fun_F5zz => 0x3E
    case Fun_F6zz => 0x3F
    case Fun_F7zz => 0x40
    case Fun_F8zz => 0x41
    case Fun_F9zz => 0x42
    case Fun_F10z => 0x43
    case Fun_F11z => 0x44
    case Fun_F12z => 0x45
    case Arw_Rght => 0x4F
    case Arw_Left => 0x50
    case Arw_Down => 0x51
    case Arw_Upzz => 0x52
    case Fun_Home => 0x4A
    case Fun_PgUp => 0x4B
    case Fun_Delz => 0x4C
    case Fun_Endz => 0x4D
    case Fun_PgDn => 0x4E
    case Vol_Mute => 0x7F
    case Vol_Upzz => 0x80
    case Vol_Down => 0x81
    case Sym_LPar => 0xB6
    case Sym_RPar => 0xB7
    case Mod_L01z => 0xF0
    case Mod_LSft => 0xF1
    case Mod_LCtl => 0xF2
    case Mod_LAlt => 0xF3
    case Mod_LCmd => 0xF4
    case Mod_RCmd => 0xF5
    case Mod_RAlt => 0xF6
    case Mod_RCtl => 0xF7
    case Mod_RSft => 0xF8
    case Emp => 0x00
    case EEEEEEEE => 0x00
    case Sym_BSla => 0x00
  }

  /** The inverse of `Usage` on the listed codes: the code whose usage byte is `b`. */
  function FromUsage(b: u8): Option<KeyCode>
  {
    match b
    case 0x00 => Some(Emp)
    case 0x04 => Some(Ltr_Azzz)
    case 0x05 => Some(Ltr_Bzzz)
    case 0x06 => Some(Ltr_Czzz)
    case 0x07 => Some(Ltr_Dzzz)
    case 0x08 => Some(Ltr_Ezzz)
    case 0x09 => Some(Ltr_Fzzz)
    case 0x0A => Some(Ltr_Gzzz)
    case 0x0B => Some(Ltr_Hzzz)
    case 0x0C => Some(Ltr_Izzz)
    case 0x0D => Some(Ltr_Jzzz)
    case 0x0E => Some(Ltr_Kzzz)
    case 0x0F => Some(Ltr_Lzzz)
    case 0x10 => Some(Ltr_Mzzz)
    case 0x11 => Some(Ltr_Nzzz)
    case 0x12 => Some(Ltr_Ozzz)
    case 0x13 => Some(Ltr_Pzzz)
    case 0x14 => Some(Ltr_Qzzz)
    case 0x15 => Some(Ltr_Rzzz)
    case 0x16 => Some(Ltr_Szzz)
    case 0x17 => Some(Ltr_Tzzz)
    case 0x18 => Some(Ltr_Uzzz)
    case 0x19 => Some(Ltr_Vzzz)
    case 0x1A => Some(Ltr_Wzzz)
    case 0x1B => Some(Ltr_Xzzz)
    case 0x1C => Some(Ltr_Yzzz)
    case 0x1D => Some(Ltr_Zzzz)
    case 0x1E => Some(Num_1zzz)
    case 0x1F => Some(Num_2zzz)
    case 0x20 => Some(Num_3zzz)
    case 0x21 => Some(Num_4zzz)
    case 0x22 => Some(Num_5zzz)
    case 0x23 => Some(Num_6zzz)
    case 0x24 => Some(Num_7zzz)
    case 0x25 => Some(Num_8zzz)
    case 0x26 => Some(Num_9zzz)
    case 0x27 => Some(Num_0zzz)
    case 0x28 => Some(Fun_Entz)
    case 0x29 => Some(Fun_Escz)
    case 0x2A => Some(Fun_Bksp)
    case 0x2B => Some(Fun_Tabz)
    case 0x2C => Some(Fun_Spcz)
    case 0x2D => Some(Sym_Minz)
    case 0x2E => Some(Sym_Equz)
    case 0x2F => Some(Sym_LBrk)
    case 0x30 => Some(Sym_RBrk)
    case 0x31 => Some(Sym_Bszz)
    case 0x33 => Some(Sym_Scln)
    case 0x34 => Some(Sym_SQut)
    case 0x35 => Some(Sym_Tild)
    case 0x36 => Some(Sym_Coma)
    case 0x37 => Some(Sym_Perd)
    case 0x38 => Some(Sym_FSla)
    case 0x39 => Some(Fun_Caps)
    case 0x3A => Some(Fun_F1zz)
    case 0x3B => Some(Fun_F2zz)
    case 0x3C => Some(Fun_F3zz)
    case 0x3D => Some(Fun_F4zz)
    case 0x3E => Some(Fun_F5zz)
    case 0x3F => Some(Fun_F6zz)
    case 0x40 => Some(Fun_F7zz)
    case 0x41 => Some(Fun_F8zz)
    case 0x42 => Some(Fun_F9zz)
    case 0x43 => Some(Fun_F10z)
    case 0x44 => Some(Fun_F11z)
    case 0x45 => Some(Fun_F12z)
    case 0x4F => Some(Arw_Rght)
    case 0x50 => Some(Arw_Left)
    case 0x51 => Some(Arw_Down)
    case 0x52 => Some(Arw_Upzz)
    case 0x4A => Some(Fun_Home)
    case 0x4B => Some(Fun_PgUp)
    case 0x4C => Some(Fun_Delz)
    case 0x4D => Some(Fun_Endz)
    case 0x4E => Some(Fun_PgDn)
    case 0x7F => Some(Vol_Mute)
    case 0x80 => Some(Vol_Upzz)
    case 0x81 => Some(Vol_Down)
    case 0xB6 => Some(Sym_LPar)
    case 0xB7 => Some(Sym_RPar)
    case 0xF0 => Some(Mod_L01z)
    case 0xF1 => Some(Mod_LSft)
    case 0xF2 => Some(Mod_LCtl)
    case 0xF3 => Some(Mod_LAlt)
    case 0xF4 => Some(Mod_LCmd)
    case 0xF5 => Some(Mod_RCmd)
    case 0xF6 => Some(Mod_RAlt)
    case 0xF7 => Some(Mod_RCtl)
    case 0xF8 => Some(Mod_RSft)
    case _ => None
  }

  /** 2 to the power `n`. */
  function Pow2(n: nat): nat
  {
    if n == 0 then 1 else 2 * Pow2(n - 1)
  }

  /**
   * Reference table: the bit of the boot keyboard report's modifier byte that carries
   * each modifier key (HID 1.11, Appendix B.1): Left Control, Left Shift, Left Alt,
   * Left GUI, Right Control, Right Shift, Right Alt, Right GUI.
   */
  function BootModifierBit(k: KeyCode): Option<nat>
  {
    match k
    case Mod_LCtl => Some(0)
    case Mod_LSft => Some(1)
    case Mod_LAlt => Some(2)
    case Mod_LCmd => Some(3)
    case Mod_RCtl => Some(4)
    case Mod_RSft => Some(5)
    case Mod_RAlt => Some(6)
    case Mod_RCmd => Some(7)
    case _ => None
  }

  /**
   * `KeyCode::modifier_bitmask`: the modifier byte bit of a modifier, as a mask. It agrees
   * with the boot report's bit assignment.
   */
  function ModifierBitmask(k: KeyCode): (m: Option<u8>)
    ensures m.Some? <==> BootModifierBit(k).Some?
    ensures m.Some? ==> BootModifierBit(k).value < 8 && m.value as nat == Pow2(BootModifierBit(k).value)
  {
    match k
    case Mod_LCtl => Some(1)
    case Mod_LSft => Some(2)
    case Mod_LAlt => Some(4)
    case Mod_LCmd => Some(8)
    case Mod_RCtl => Some(16)
    case Mod_RSft => Some(32)
    case Mod_RAlt => Some(64)
    case Mod_RCmd => Some(128)
    case _ => None
  }

  /** `KeyCode::is_modifier`: `Mod_L01z`, or any code that has a modifier bit. */
  function IsModifier(k: KeyCode): (b: bool)
    ensures b <==> k in {Mod_L01z, Mod_LSft, Mod_LCtl, Mod_LAlt, Mod_LCmd, Mod_RCmd, Mod_RAlt, Mod_RCtl, Mod_RSft}
  {
    k.Mod_L01z? || ModifierBitmask(k).Some?
  }

  /** A modifier mask is a single bit of the byte. */
  lemma ModifierBitmaskOneBit(k: KeyCode)
    requires ModifierBitmask(k).Some?
    ensures ModifierBitmask(k).value in {1, 2, 4, 8, 16, 32, 64, 128}
  {
  }

  /** Distinct modifiers get distinct bits. */
  lemma ModifierBitmaskInjective(a: KeyCode, b: KeyCode)
    requires ModifierBitmask(a).Some? && ModifierBitmask(a) == ModifierBitmask(b)
    ensures a == b
  {
  }

  /** Helper for `UsageRoundTrip`: the codes with discriminants 0..9. */
  lemma UsageRoundTripOrdinals0To9(k: KeyCode)
    requires 0 <= Ordinal(k) <= 9
    ensures FromUsage(Usage(k)) == Some(k)
  {
  }

  /** Helper for `UsageRoundTrip`: the codes with discriminants 10..19. */
  lemma UsageRoundTripOrdinals10To19(k: KeyCode)
    requires 10 <= Ordinal(k) <= 19
    ensures FromUsage(Usage(k)) == Some(k)
  {
  }

  /** Helper for `UsageRoundTrip`: the codes with discriminants 20..29. */
  lemma UsageRoundTripOrdinals20To29(k: KeyCode)
    requires 20 <= Ordinal(k) <= 29
    ensures FromUsage(Usage(k)) == Some(k)
  {
  }

  /** Helper for `UsageRoundTrip`: the codes with discriminants 30..39. */
  lemma UsageRoundTripOrdinals30To39(k: KeyCode)
    requires 30 <= Ordinal(k) <= 39
    ensures FromUsage(Usage(k)) == Some(k)
  {
  }

  /** Helper for `UsageRoundTrip`: the codes with discriminants 40..49. */
  lemma UsageRoundTripOrdinals40To49(k: KeyCode)
    requires 40 <= Ordinal(k) <= 49
    ensures FromUsage(Usage(k)) == Some(k)
  {
  }

  /** Helper for `UsageRoundTrip`: the codes with discriminants 50..59. */
  lemma UsageRoundTripOrdinals50To59(k: KeyCode)
    requires 50 <= Ordinal(k) <= 59
    ensures FromUsage(Usage(k)) == Some(k)
  {
  }

  /** Helper for `UsageRoundTrip`: the codes with discriminants 60..66. */
  lemma UsageRoundTripOrdinals60To66(k: KeyCode)
    requires 60 <= Ordinal(k) <= 66
    ensures FromUsage(Usage(k)) == Some(k)
  {
  }

  /** Helper for `UsageRoundTrip`: the codes with discriminants 67..73. */
  lemma UsageRoundTripOrdinals67To73(k: KeyCode)
    requires 67 <= Ordinal(k) <= 73
    ensures FromUsage(Usage(k)) == Some(k)
  {
  }

  /** Helper for `UsageRoundTrip`: the codes with discriminants 74..80. */
  lemma UsageRoundTripOrdinals74To80(k: KeyCode)
    requires 74 <= Ordinal(k) <= 80
    ensures FromUsage(Usage(k)) == Some(k)
  {
  }

  /** Helper for `UsageRoundTrip`: the codes with discriminants 81..88. */
  lemma UsageRoundTripOrdinals81To88(k: KeyCode)
    requires 81 <= Ordinal(k) <= 88
    ensures FromUsage(Usage(k)) == Some(k)
  {
  }

  /** `FromUsage` undoes `Usage` on every code the Rust enum declares. */
  lemma UsageRoundTrip(k: KeyCode)
    requires IsListed(k)
    ensures FromUsage(Usage(k)) == Some(k)
  {
    if Ordinal(k) <= 9 {
      UsageRoundTripOrdinals0To9(k);
    }
    else if Ordinal(k) <= 19 {
      UsageRoundTripOrdinals10To19(k);
    }
    else if Ordinal(k) <= 29 {
      UsageRoundTripOrdinals20To29(k);
    }
    else if Ordinal(k) <= 39 {
      UsageRoundTripOrdinals30To39(k);
    }
    else if Ordinal(k) <= 49 {
      UsageRoundTripOrdinals40To49(k);
    }
    else if Ordinal(k) <= 59 {
      UsageRoundTripOrdinals50To59(k);
    }
    else if Ordinal(k) <= 66 {
      UsageRoundTripOrdinals60To66(k);
    }
    else if Ordinal(k) <= 73 {
      UsageRoundTripOrdinals67To73(k);
    }
    else if Ordinal(k) <= 80 {
      UsageRoundTripOrdinals74To80(k);
    }
    else if Ordinal(k) <= 88 {
      UsageRoundTripOrdinals81To88(k);
    }
  }

  /** The usage mapping is injective over the Rust enum. */
  lemma UsageInjective(a: KeyCode, b: KeyCode)
    requires IsListed(a) && IsListed(b) && Usage(a) == Usage(b)
    ensures a == b
  {
    UsageRoundTrip(a);
    UsageRoundTrip(b);
  }

  /** Only the empty code has usage 0 among the codes the Rust enum declares. */
  lemma UsageZeroOnlyEmpty(k: KeyCode)
    requires IsListed(k)
    ensures Usage(k) == 0 <==> k == Emp
  {
  }

  /** The letter codes `Ltr_Azzz` ..= `Ltr_Zzzz`. */
  predicate IsLetterKey(k: KeyCode)
  {
    k.Ltr_Azzz? || k.Ltr_Bzzz? || k.Ltr_Czzz? || k.Ltr_Dzzz? || k.Ltr_Ezzz? || k.Ltr_Fzzz? ||
    k.Ltr_Gzzz? || k.Ltr_Hzzz? || k.Ltr_Izzz? || k.Ltr_Jzzz? || k.Ltr_Kzzz? || k.Ltr_Lzzz? ||
    k.Ltr_Mzzz? || k.Ltr_Nzzz? || k.Ltr_Ozzz? || k.Ltr_Pzzz? || k.Ltr_Qzzz? || k.Ltr_Rzzz? ||
    k.Ltr_Szzz? || k.Ltr_Tzzz? || k.Ltr_Uzzz? || k.Ltr_Vzzz? || k.Ltr_Wzzz? || k.Ltr_Xzzz? ||
    k.Ltr_Yzzz? || k.Ltr_Zzzz?
  }

  /** Letters A..Z are discriminants 1..26 and have the consecutive usages 0x04..0x1D. */
  lemma LettersConsecutive(k: KeyCode)
    requires IsLetterKey(k)
    ensures 1 <= Ordinal(k) <= 26
    ensures Usage(k) == Ordinal(k) + 3
    ensures 0x04 <= Usage(k) <= 0x1D
  {
  }

  /** The digit codes `Num_1zzz` ..= `Num_0zzz`. */
  predicate IsDigitKey(k: KeyCode)
  {
    k.Num_1zzz? || k.Num_2zzz? || k.Num_3zzz? || k.Num_4zzz? || k.Num_5zzz? || k.Num_6zzz? ||
    k.Num_7zzz? || k.Num_8zzz? || k.Num_9zzz? || k.Num_0zzz?
  }

  /** Digits 1..9, 0 are discriminants 27..36 and have the consecutive usages 0x1E..0x27. */
  lemma DigitsConsecutive(k: KeyCode)
    requires IsDigitKey(k)
    ensures 27 <= Ordinal(k) <= 36
    ensures Usage(k) == Ordinal(k) + 3
    ensures 0x1E <= Usage(k) <= 0x27
  {
  }
}
