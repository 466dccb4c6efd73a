/**
 * The keymap loader of `src/key_mapping.rs`: a layout is a flat list of entries, one per
 * key, row after row; each entry's prefix names the constructor of that cell and the rest of
 * the entry is the constructor's parameter text.
 */
module KeyMapping {
  import opened Types
  import opened KeyCodes
  import opened StateTypes
  import opened KeyRecord
  import DefaultKey
  import TapComKey
  import LayerHoldKey
  import SendStringKey
  import TransparentKey

  /**
   * The constructor call a layout entry selects, with its parameter text. `DefaultOf` is the
   * pre-filled cell `Default::new(KeyCode::EEEEEEEE)` that an empty entry leaves in place.
   */
  datatype Ctor =
    | DefaultOf(code: KeyCode)
    | DefaultFrom(param: string)
    | ModTapFrom(param: string)
    | TapComFrom(param: string)
    | ModComboFrom(param: string)
    | RgbFrom(param: string)
    | LayerHoldFrom(param: string)
    | TransparentNew
    | SendStringFrom(param: string)

  /** The seven four-character prefixes that carry a parameter. */
  const Prefixes: set<string> := {"dft,", "mdt,", "tpc,", "mdc,", "rgk,", "lyh,", "sst,"}

  /** The entry starts with one of the seven four-character prefixes. */
  predicate Prefixed(sel: string)
  {
    |sel| >= 4 && sel[..4] in Prefixes
  }

  /** The cell an entry yields: its constructor by prefix, or Default `EEEEEEEE` for anything else. */
  function Classify(sel: string): (k: Ctor)
    ensures |sel| == 0 ==> k == DefaultOf(EEEEEEEE)
    ensures |sel| > 0 && !StartsWith(sel, "transparent") && !Prefixed(sel)
      ==> k == DefaultFrom("EEEEEEEE")
    ensures Prefixed(sel) ==> !k.DefaultOf? && !k.TransparentNew? && k.param == sel[4..]
    ensures StartsWith(sel, "dft,") ==> k == DefaultFrom(sel[4..])
    ensures StartsWith(sel, "mdt,") ==> k == ModTapFrom(sel[4..])
    ensures StartsWith(sel, "tpc,") ==> k == TapComFrom(sel[4..])
    ensures StartsWith(sel, "mdc,") ==> k == ModComboFrom(sel[4..])
    ensures StartsWith(sel, "rgk,") ==> k == RgbFrom(sel[4..])
    ensures StartsWith(sel, "lyh,") ==> k == LayerHoldFrom(sel[4..])
    ensures StartsWith(sel, "sst,") ==> k == SendStringFrom(sel[4..])
  {
    if |sel| == 0 then DefaultOf(EEEEEEEE)
    else if StartsWith(sel, "dft,") then DefaultFrom(sel[4..])
    else if StartsWith(sel, "mdt,") then ModTapFrom(sel[4..])
    else if StartsWith(sel, "tpc,") then TapComFrom(sel[4..])
    else if StartsWith(sel, "mdc,") then ModComboFrom(sel[4..])
    else if StartsWith(sel, "rgk,") then RgbFrom(sel[4..])
    else if StartsWith(sel, "lyh,") then LayerHoldFrom(sel[4..])
    else if StartsWith(sel, "transparent") then TransparentNew
    else if StartsWith(sel, "sst,") then SendStringFrom(sel[4..])
    else DefaultFrom("EEEEEEEE")
  }

  /** The layout entry that selects `k`: its prefix followed by its parameter text. */
  function Render(k: Ctor): string
  {
    match k
    case DefaultOf(_) => ""
    case DefaultFrom(p) => "dft," + p
    case ModTapFrom(p) => "mdt," + p
    case TapComFrom(p) => "tpc," + p
    case ModComboFrom(p) => "mdc," + p
    case RgbFrom(p) => "rgk," + p
    case LayerHoldFrom(p) => "lyh," + p
    case TransparentNew => "transparent"
    case SendStringFrom(p) => "sst," + p
  }

  /** The entries `Classify` reads back exactly: empty, "transparent", or a known prefix. */
  predicate Recognised(sel: string)
  {
    sel == "" || sel == "transparent" || Prefixed(sel)
  }

  /** Every cell but a pre-filled code other than `EEEEEEEE` is selected by its own rendering. */
  lemma ClassifyRender(k: Ctor)
    requires k.DefaultOf? ==> k.code == EEEEEEEE
    ensures Recognised(Render(k))
    ensures Classify(Render(k)) == k
  {
    var s := Render(k);
    if !k.DefaultOf? {
      var p := if k.TransparentNew? then s else s[..4];
      if !k.TransparentNew? {
        assert s[..4] + k.param == s;
        assert s[4..] == k.param;
      }
      forall q | q in Prefixes + {"transparent"} && q != p
        ensures !StartsWith(s, q)
      {
        PrefixesExclusive(s, p, q);
      }
    }
  }

  /** A recognised entry is the rendering of the cell it selects. */
  lemma RenderClassify(sel: string)
    requires Recognised(sel)
    ensures Render(Classify(sel)) == sel
  {
    if Prefixed(sel) {
      assert sel == sel[..4] + sel[4..];
    }
  }

  /** A string that starts with `p` starts with every prefix of `p`. */
  lemma StartsWithPrefix(s: string, p: string, n: nat)
    requires StartsWith(s, p) && n <= |p|
    ensures s[..n] == p[..n]
  {
    assert s[..n] == s[..|p|][..n];
  }

  /**
   * The four-character prefixes and "transparent" exclude one another, so the order of the
   * tests does not matter, and an entry is transparent exactly when it starts with "transparent".
   */
  lemma PrefixesExclusive(sel: string, p: string, q: string)
    requires p in Prefixes + {"transparent"} && q in Prefixes + {"transparent"} && p != q
    ensures !(StartsWith(sel, p) && StartsWith(sel, q))
  {
    assert "transparent"[..4] == "tran";
    if StartsWith(sel, p) && StartsWith(sel, q) {
      StartsWithPrefix(sel, p, 4);
      StartsWithPrefix(sel, q, 4);
    }
  }

  /** An entry selects the transparent cell exactly when it starts with "transparent". */
  lemma ClassifyTransparent(sel: string)
    ensures Classify(sel).TransparentNew? <==> StartsWith(sel, "transparent")
  {
    var t := "transparent";
    if StartsWith(sel, t) {
      forall p | p in Prefixes
        ensures !StartsWith(sel, p)
      {
        PrefixesExclusive(sel, p, t);
      }
    }
  }

  /** The constructors whose text form appears in the source; `mdtnew`, `mdcnew` and `rgknew` do not. */
  predicate Shown(k: Ctor)
  {
    !k.ModTapFrom? && !k.ModComboFrom? && !k.RgbFrom?
  }

  /** The behaviour a constructor builds. */
  function BehaviourOf(k: Ctor): Behaviour
  {
    match k
    case DefaultOf(_) => Default
    case DefaultFrom(_) => Default
    case ModTapFrom(_) => ModTap
    case TapComFrom(_) => TapCom
    case ModComboFrom(_) => ModCombo
    case RgbFrom(_) => Rgb
    case LayerHoldFrom(_) => LayerHold
    case TransparentNew => Transparent
    case SendStringFrom(_) => SendStr
  }

  /**
   * The key a shown constructor builds, `decode` being `KeyCode::from(&str)`: a released key
   * of the constructor's behaviour. Only the tap-combo and layer-hold parsers can fail.
   */
  function Build(k: Ctor, decode: string -> KeyCode): (r: Option<KeyData>)
    requires Shown(k)
    ensures r.Some? ==> r.value.typ == BehaviourOf(k) && r.value.state == Off && r.value.prevstate == Off
    ensures r.None? ==> k.TapComFrom? || k.LayerHoldFrom?
    ensures k.DefaultOf? ==> r == Some(DefaultKey.New(k.code, None))
    ensures k.DefaultFrom? ==> r == Some(DefaultKey.New(decode(k.param), None))
    ensures k.TapComFrom? ==> r == TapComKey.New(k.param, decode)
    ensures k.LayerHoldFrom? ==> r == LayerHoldKey.New(k.param)
    ensures k.SendStringFrom? ==> r == Some(SendStringKey.New(k.param))
    ensures k.TransparentNew? ==> r == Some(TransparentKey.New())
  {
    match k
    case DefaultOf(code) => Some(DefaultKey.New(code, None))
    case DefaultFrom(p) => Some(DefaultKey.New(decode(p), None))
    case TapComFrom(p) => TapComKey.New(p, decode)
    case LayerHoldFrom(p) => LayerHoldKey.New(p)
    case TransparentNew => Some(TransparentKey.New())
    case SendStringFrom(p) => Some(SendStringKey.New(p))
  }

  /** `a <= b` implies `a * n <= b * n`. */
  lemma MulMonotone(a: nat, b: nat, n: nat)
    requires a <= b
    ensures a * n <= b * n
  {
  }

  /** Row-major positions are distinct: `(r, c)` is determined by `r * cols + c` when `c < cols`. */
  lemma RowMajorUnique(r1: nat, c1: nat, r2: nat, c2: nat, cols: nat)
    requires c1 < cols && c2 < cols && r1 * cols + c1 == r2 * cols + c2
    ensures r1 == r2 && c1 == c2
  {
    if r1 < r2 {
      MulMonotone(r1 + 1, r2, cols);
    } else if r2 < r1 {
      MulMonotone(r2 + 1, r1, cols);
    }
  }

  /** A flat position below `rows * cols` lies in a row below `rows`. */
  lemma RowBound(r: nat, c: nat, rows: nat, cols: nat)
    requires r * cols + c < rows * cols
    ensures r < rows
  {
    if r >= rows {
      MulMonotone(rows, r, cols);
    }
  }

  /** Once the flat position reaches `rows * cols`, every cell of the grid lies before it. */
  lemma GridFilled(r: nat, c: nat, rows: nat, cols: nat, r': nat, c': nat)
    requires r * cols + c == rows * cols && c <= cols && r' < rows && c' < cols
    ensures r' < r || (r' == r && c' < c)
  {
    if r' > r {
      MulMonotone(r + 1, r', cols);
      MulMonotone(r' + 1, rows, cols);
    } else if r' == r && c' >= c {
      MulMonotone(r' + 1, rows, cols);
    }
  }

  /** Flat position `i` of a `rows` by `cols` grid is row `i / cols`, column `i % cols`. */
  lemma FlatIndex(i: nat, rows: nat, cols: nat)
    requires i < rows * cols
    ensures cols > 0 && i / cols < rows && i % cols < cols && (i / cols) * cols + i % cols == i
  {
    RowBound(i / cols, i % cols, rows, cols);
  }

  /** `cols * (r + 1)`, the flat index at which row `r + 1` starts, is `r * cols + cols`. */
  lemma NextRow(r: nat, cols: nat)
    ensures cols * (r + 1) == r * cols + cols
  {
  }

  /** The cell that entry `r * cols + c` of `v` builds, or the pre-filled cell past the end. */
  function CellOf(v: seq<string>, cols: nat, r: nat, c: nat): Ctor
  {
    if r * cols + c < |v| then Classify(v[r * cols + c]) else DefaultOf(EEEEEEEE)
  }

  /**
   * `KeyMatrix::from`: every cell starts as Default `EEEEEEEE`; entry `i` fills row `r`,
   * column `c`, moving to the next row when `i` reaches `cols * (r + 1)`; an empty entry
   * leaves its cell as it was.
   */
  method Load(v: seq<string>, rows: nat, cols: nat) returns (m: array2<Ctor>)
    requires |v| == rows * cols
    ensures fresh(m) && m.Length0 == rows && m.Length1 == cols
    ensures forall r, c | 0 <= r < rows && 0 <= c < cols :: m[r, c] == CellOf(v, cols, r, c)
  {
    m := new Ctor[rows, cols]((_, _) => DefaultOf(EEEEEEEE));
    var r: nat := 0;
    var c: nat := 0;
    var i := 0;
    while i < |v|
      invariant 0 <= i <= |v| && r * cols + c == i && c <= cols
      invariant forall r', c' | 0 <= r' < rows && 0 <= c' < cols ::
        m[r', c'] == if r' < r || (r' == r && c' < c) then CellOf(v, cols, r', c') else DefaultOf(EEEEEEEE)
    {
      NextRow(r, cols);
      if i == cols * (r + 1) {
        r := r + 1;
        c := 0;
      }
      RowBound(r, c, rows, cols);
      var sel := v[i];
      assert CellOf(v, cols, r, c) == Classify(sel);
      label before:
      if |sel| > 0 {
        m[r, c] := Classify(sel);
      }
      assert forall r', c' | 0 <= r' < rows && 0 <= c' < cols && (r' != r || c' != c) ::
        m[r', c'] == old@before(m[r', c']);
      c := c + 1;
      i := i + 1;
    }
    forall r', c' | 0 <= r' < rows && 0 <= c' < cols
      ensures m[r', c'] == CellOf(v, cols, r', c')
    {
      GridFilled(r, c, rows, cols, r', c');
    }
  }

  /** Entry `i` of a loaded layout is the cell at row `i / cols`, column `i % cols`. */
  lemma LoadFlat(v: seq<string>, rows: nat, cols: nat, i: nat)
    requires |v| == rows * cols && i < |v|
    ensures cols > 0 && i / cols < rows && i % cols < cols
    ensures CellOf(v, cols, i / cols, i % cols) == Classify(v[i])
  {
    FlatIndex(i, rows, cols);
  }

  /** `ERGOONE_RSTLNE`: the base layer, as its five rows of sixteen entries. */
  const ERGOONE_RSTLNE: seq<string> := RSTLNE_ROW0 + RSTLNE_ROW1 + RSTLNE_ROW2 + RSTLNE_ROW3 + RSTLNE_ROW4

  const RSTLNE_ROW0: seq<string> :=
    [ "dft,Sym_Tild", "dft,Num_1zzz", "dft,Num_2zzz", "dft,Num_3zzz",
      "dft,Num_4zzz", "dft,Num_5zzz", "rgk,0_255_0", "dft,EEEEEEEE",
      "dft,EEEEEEEE", "dft,EEEEEEEE", "dft,Num_6zzz", "dft,Num_7zzz",
      "dft,Num_8zzz", "dft,Num_9zzz", "dft,Num_0zzz", "dft,Sym_Equz" ]

  const RSTLNE_ROW1: seq<string> :=
    [ "dft,Fun_Tabz", "dft,Ltr_Qzzz", "dft,Ltr_Wzzz", "dft,Ltr_Dzzz",
      "dft,Ltr_Fzzz", "dft,Ltr_Zzzz", "rgk,255_0_0", "dft,EEEEEEEE",
      "dft,EEEEEEEE", "dft,EEEEEEEE", "dft,Sym_Scln", "dft,Ltr_Uzzz",
      "dft,Ltr_Kzzz", "dft,Ltr_Yzzz", "dft,Ltr_Pzzz", "dft,Sym_BSla" ]

  const RSTLNE_ROW2: seq<string> :=
    [ "mdt,Fun_Escz,Mod_LCtl", "dft,Ltr_Azzz", "dft,Ltr_Szzz", "dft,Ltr_Ezzz",
      "dft,Ltr_Rzzz", "dft,Ltr_Tzzz", "dft,Sym_Minz", "dft,Fun_Spcz",
      "dft,Fun_Entz", "dft,Sym_Equz", "dft,Ltr_Hzzz", "dft,Ltr_Nzzz",
      "dft,Ltr_Izzz", "dft,Ltr_Ozzz", "dft,Ltr_Lzzz", "dft,Sym_SQut" ]

  const RSTLNE_ROW3: seq<string> :=
    [ "tpc,Mod_LSft,Mod_LSft,Num_9zzz", "dft,Ltr_Gzzz", "dft,Ltr_Xzzz", "dft,Ltr_Czzz",
      "dft,Ltr_Vzzz", "dft,Sym_FSla", "mdc,Mod_LSft,Sym_Minz", "dft,Fun_Home",
      "dft,Fun_PgDn", "dft,Fun_Bksp", "dft,Ltr_Bzzz", "dft,Ltr_Jzzz",
      "dft,Ltr_Mzzz", "dft,Sym_Coma", "dft,Sym_Perd", "tpc,Mod_RSft,Mod_RSft,Num_0zzz" ]

  const RSTLNE_ROW4: seq<string> :=
    [ "dft,Mod_LCtl", "dft,Mod_LAlt", "dft,Mod_LCmd", "dft,Fun_Spcz",
      "dft,Sym_LBrk", "dft,Mod_LCmd", "dft,EEEEEEEE", "dft,Fun_Endz",
      "dft,Fun_PgUp", "dft,EEEEEEEE", "lyh,1,0", "dft,Sym_RBrk",
      "dft,Arw_Left", "dft,Arw_Down", "dft,Arw_Upzz", "dft,Arw_Rght" ]

  /** `ERGOONE_1`: the function layer, mostly transparent, as its five rows of sixteen entries. */
  const ERGOONE_1: seq<string> := LAYER1_ROW0 + LAYER1_ROW1 + LAYER1_ROW2 + LAYER1_ROW3 + LAYER1_ROW4

  const LAYER1_ROW0: seq<string> :=
    [ "transparent", "dft,Fun_F1zz", "dft,Fun_F2zz", "dft,Fun_F3zz",
      "dft,Fun_F4zz", "dft,Fun_F5zz", "transparent", "transparent",
      "transparent", "transparent", "dft,Fun_F6zz", "dft,Fun_F7zz",
      "dft,Fun_F8zz", "dft,Fun_F9zz", "dft,Fun_F10z", "dft,Fun_F11z" ]

  const LAYER1_ROW1: seq<string> :=
    [ "transparent", "transparent", "dft,Arw_Upzz", "transparent",
      "transparent", "transparent", "transparent", "transparent",
      "transparent", "transparent", "transparent", "dft,Num_7zzz",
      "dft,Num_8zzz", "dft,Num_9zzz", "transparent", "dft,Fun_F12z" ]

  const LAYER1_ROW2: seq<string> :=
    [ "transparent", "dft,Arw_Left", "dft,Arw_Down", "dft,Arw_Rght",
      "transparent", "transparent", "transparent", "transparent",
      "transparent", "transparent", "transparent", "dft,Num_4zzz",
      "dft,Num_5zzz", "dft,Num_6zzz", "transparent", "transparent" ]

  const LAYER1_ROW3: seq<string> :=
    [ "transparent", "transparent", "transparent", "transparent",
      "transparent", "transparent", "transparent", "transparent",
      "transparent", "dft,Fun_Delz", "transparent", "dft,Num_1zzz",
      "dft,Num_2zzz", "dft,Num_3zzz", "transparent", "transparent" ]

  const LAYER1_ROW4: seq<string> :=
    [ "transparent", "transparent", "transparent", "transparent",
      "transparent", "sst,@zion", "transparent", "transparent",
      "transparent", "transparent", "transparent", "dft,Num_0zzz",
      "transparent", "transparent", "transparent", "transparent" ]

  /** `ERGOONE_QWERTY`: the alternative base layer, as its five rows of sixteen entries. */
  const ERGOONE_QWERTY: seq<string> := QWERTY_ROW0 + QWERTY_ROW1 + QWERTY_ROW2 + QWERTY_ROW3 + QWERTY_ROW4

  const QWERTY_ROW0: seq<string> :=
    [ "dft,Fun_Escz", "dft,Num_1zzz", "dft,Num_2zzz", "dft,Num_3zzz",
      "dft,Num_4zzz", "dft,Num_5zzz", "rgk,0_255_0", "dft,EEEEEEEE",
      "dft,EEEEEEEE", "dft,EEEEEEEE", "dft,Num_6zzz", "dft,Num_7zzz",
      "dft,Num_8zzz", "dft,Num_9zzz", "dft,Num_0zzz", "dft,Sym_Equz" ]

  const QWERTY_ROW1: seq<string> :=
    [ "dft,Fun_Tabz", "dft,Ltr_Qzzz", "dft,Ltr_Wzzz", "dft,Ltr_Ezzz",
      "dft,Ltr_Rzzz", "dft,Ltr_Tzzz", "rgk,255_0_0", "dft,EEEEEEEE",
      "dft,EEEEEEEE", "dft,EEEEEEEE", "dft,Ltr_Yzzz", "dft,Ltr_Uzzz",
      "dft,Ltr_Kzzz", "dft,Ltr_Yzzz", "dft,Ltr_Pzzz", "dft,Sym_BSla" ]

  const QWERTY_ROW2: seq<string> :=
    [ "mdt,Fun_Escz,Mod_LCtl", "dft,Ltr_Azzz", "dft,Ltr_Szzz", "dft,Ltr_Dzzz",
      "dft,Ltr_Fzzz", "dft,Ltr_Gzzz", "dft,Sym_Minz", "dft,Fun_Spcz",
      "dft,Fun_Entz", "dft,Sym_Equz", "dft,Ltr_Hzzz", "dft,Ltr_Jzzz",
      "dft,Ltr_Kzzz", "dft,Ltr_Lzzz", "dft,Sym_Scln", "dft,Sym_SQut" ]

  const QWERTY_ROW3: seq<string> :=
    [ "dft,Mod_LSft", "dft,Ltr_Zzzz", "dft,Ltr_Xzzz", "dft,Ltr_Czzz",
      "dft,Ltr_Vzzz", "dft,Ltr_Bzzz", "mdc,Sym_Minz,Mod_LSft", "dft,EEEEEEEE",
      "dft,EEEEEEEE", "dft,Fun_Bksp", "dft,Ltr_Nzzz", "dft,Ltr_Mzzz",
      "dft,Sym_Coma", "dft,Sym_Perd", "dft,Sym_FSla", "dft,Mod_RSft" ]

  const QWERTY_ROW4: seq<string> :=
    [ "dft,Mod_LCtl", "dft,Mod_LAlt", "dft,Mod_LCmd", "dft,Fun_Spcz",
      "dft,Sym_LBrk", "dft,Mod_LCmd", "dft,EEEEEEEE", "dft,EEEEEEEE",
      "dft,EEEEEEEE", "dft,EEEEEEEE", "dft,EEEEEEEE", "dft,Sym_RBrk",
      "dft,Arw_Left", "dft,Arw_Down", "dft,Arw_Upzz", "dft,Arw_Rght" ]

  /** An entry whose first four characters spell a prefix is prefixed. */
  lemma PrefixedBy(sel: string, prefix: string)
    requires prefix in Prefixes && |sel| >= 4
    requires sel[0] == prefix[0] && sel[1] == prefix[1] && sel[2] == prefix[2] && sel[3] == prefix[3]
    ensures Prefixed(sel) && sel[..4] == prefix
  {
    assert sel[..4] == prefix;
  }

  /** Row 0 of `ERGOONE_RSTLNE`: every entry is a prefixed constructor call. */
  lemma RstlneRow0()
    ensures AllPrefixed(RSTLNE_ROW0)
  {
    forall j | 0 <= j < 16
      ensures Prefixed(RSTLNE_ROW0[j])
    {
      if j == 0 { PrefixedBy(RSTLNE_ROW0[j], "dft,"); }
      else if j == 1 { PrefixedBy(RSTLNE_ROW0[j], "dft,"); }
      else if j == 2 { PrefixedBy(RSTLNE_ROW0[j], "dft,"); }
      else if j == 3 { PrefixedBy(RSTLNE_ROW0[j], "dft,"); }
      else if j == 4 { PrefixedBy(RSTLNE_ROW0[j], "dft,"); }
      else if j == 5 { PrefixedBy(RSTLNE_ROW0[j], "dft,"); }
      else if j == 6 { PrefixedBy(RSTLNE_ROW0[j], "rgk,"); }
      else if j == 7 { PrefixedBy(RSTLNE_ROW0[j], "dft,"); }
      else if j == 8 { PrefixedBy(RSTLNE_ROW0[j], "dft,"); }
      else if j == 9 { PrefixedBy(RSTLNE_ROW0[j], "dft,"); }
      else if j == 10 { PrefixedBy(RSTLNE_ROW0[j], "dft,"); }
      else if j == 11 { PrefixedBy(RSTLNE_ROW0[j], "dft,"); }
      else if j == 12 { PrefixedBy(RSTLNE_ROW0[j], "dft,"); }
      else if j == 13 { PrefixedBy(RSTLNE_ROW0[j], "dft,"); }
      else if j == 14 { PrefixedBy(RSTLNE_ROW0[j], "dft,"); }
      else { PrefixedBy(RSTLNE_ROW0[j], "dft,"); }
    }
  }

  /** Row 1 of `ERGOONE_RSTLNE`: every entry is a prefixed constructor call. */
  lemma RstlneRow1()
    ensures AllPrefixed(RSTLNE_ROW1)
  {
    forall j | 0 <= j < 16
      ensures Prefixed(RSTLNE_ROW1[j])
    {
      if j == 0 { PrefixedBy(RSTLNE_ROW1[j], "dft,"); }
      else if j == 1 { PrefixedBy(RSTLNE_ROW1[j], "dft,"); }
      else if j == 2 { PrefixedBy(RSTLNE_ROW1[j], "dft,"); }
      else if j == 3 { PrefixedBy(RSTLNE_ROW1[j], "dft,"); }
      else if j == 4 { PrefixedBy(RSTLNE_ROW1[j], "dft,"); }
      else if j == 5 { PrefixedBy(RSTLNE_ROW1[j], "dft,"); }
      else if j == 6 { PrefixedBy(RSTLNE_ROW1[j], "rgk,"); }
      else if j == 7 { PrefixedBy(RSTLNE_ROW1[j], "dft,"); }
      else if j == 8 { PrefixedBy(RSTLNE_ROW1[j], "dft,"); }
      else if j == 9 { PrefixedBy(RSTLNE_ROW1[j], "dft,"); }
      else if j == 10 { PrefixedBy(RSTLNE_ROW1[j], "dft,"); }
      else if j == 11 { PrefixedBy(RSTLNE_ROW1[j], "dft,"); }
      else if j == 12 { PrefixedBy(RSTLNE_ROW1[j], "dft,"); }
      else if j == 13 { PrefixedBy(RSTLNE_ROW1[j], "dft,"); }
      else if j == 14 { PrefixedBy(RSTLNE_ROW1[j], "dft,"); }
      else { PrefixedBy(RSTLNE_ROW1[j], "dft,"); }
    }
  }

  /** Row 2 of `ERGOONE_RSTLNE`: every entry is a prefixed constructor call. */
  lemma RstlneRow2()
    ensures AllPrefixed(RSTLNE_ROW2)
  {
    forall j | 0 <= j < 16
      ensures Prefixed(RSTLNE_ROW2[j])
    {
      if j == 0 { PrefixedBy(RSTLNE_ROW2[j], "mdt,"); }
      else if j == 1 { PrefixedBy(RSTLNE_ROW2[j], "dft,"); }
      else if j == 2 { PrefixedBy(RSTLNE_ROW2[j], "dft,"); }
      else if j == 3 { PrefixedBy(RSTLNE_ROW2[j], "dft,"); }
      else if j == 4 { PrefixedBy(RSTLNE_ROW2[j], "dft,"); }
      else if j == 5 { PrefixedBy(RSTLNE_ROW2[j], "dft,"); }
      else if j == 6 { PrefixedBy(RSTLNE_ROW2[j], "dft,"); }
      else if j == 7 { PrefixedBy(RSTLNE_ROW2[j], "dft,"); }
      else if j == 8 { PrefixedBy(RSTLNE_ROW2[j], "dft,"); }
      else if j == 9 { PrefixedBy(RSTLNE_ROW2[j], "dft,"); }
      else if j == 10 { PrefixedBy(RSTLNE_ROW2[j], "dft,"); }
      else if j == 11 { PrefixedBy(RSTLNE_ROW2[j], "dft,"); }
      else if j == 12 { PrefixedBy(RSTLNE_ROW2[j], "dft,"); }
      else if j == 13 { PrefixedBy(RSTLNE_ROW2[j], "dft,"); }
      else if j == 14 { PrefixedBy(RSTLNE_ROW2[j], "dft,"); }
      else { PrefixedBy(RSTLNE_ROW2[j], "dft,"); }
    }
  }

  /** Row 3 of `ERGOONE_RSTLNE`: every entry is a prefixed constructor call. */
  lemma RstlneRow3()
    ensures AllPrefixed(RSTLNE_ROW3)
  {
    forall j | 0 <= j < 16
      ensures Prefixed(RSTLNE_ROW3[j])
    {
      if j == 0 { PrefixedBy(RSTLNE_ROW3[j], "tpc,"); }
      else if j == 1 { PrefixedBy(RSTLNE_ROW3[j], "dft,"); }
      else if j == 2 { PrefixedBy(RSTLNE_ROW3[j], "dft,"); }
      else if j == 3 { PrefixedBy(RSTLNE_ROW3[j], "dft,"); }
      else if j == 4 { PrefixedBy(RSTLNE_ROW3[j], "dft,"); }
      else if j == 5 { PrefixedBy(RSTLNE_ROW3[j], "dft,"); }
      else if j == 6 { PrefixedBy(RSTLNE_ROW3[j], "mdc,"); }
      else if j == 7 { PrefixedBy(RSTLNE_ROW3[j], "dft,"); }
      else if j == 8 { PrefixedBy(RSTLNE_ROW3[j], "dft,"); }
      else if j == 9 { PrefixedBy(RSTLNE_ROW3[j], "dft,"); }
      else if j == 10 { PrefixedBy(RSTLNE_ROW3[j], "dft,"); }
      else if j == 11 { PrefixedBy(RSTLNE_ROW3[j], "dft,"); }
      else if j == 12 { PrefixedBy(RSTLNE_ROW3[j], "dft,"); }
      else if j == 13 { PrefixedBy(RSTLNE_ROW3[j], "dft,"); }
      else if j == 14 { PrefixedBy(RSTLNE_ROW3[j], "dft,"); }
      else { PrefixedBy(RSTLNE_ROW3[j], "tpc,"); }
    }
  }

  /** Row 4 of `ERGOONE_RSTLNE`: every entry is a prefixed constructor call. */
  lemma RstlneRow4()
    ensures AllPrefixed(RSTLNE_ROW4)
  {
    forall j | 0 <= j < 16
      ensures Prefixed(RSTLNE_ROW4[j])
    {
      if j == 0 { PrefixedBy(RSTLNE_ROW4[j], "dft,"); }
      else if j == 1 { PrefixedBy(RSTLNE_ROW4[j], "dft,"); }
      else if j == 2 { PrefixedBy(RSTLNE_ROW4[j], "dft,"); }
      else if j == 3 { PrefixedBy(RSTLNE_ROW4[j], "dft,"); }
      else if j == 4 { PrefixedBy(RSTLNE_ROW4[j], "dft,"); }
      else if j == 5 { PrefixedBy(RSTLNE_ROW4[j], "dft,"); }
      else if j == 6 { PrefixedBy(RSTLNE_ROW4[j], "dft,"); }
      else if j == 7 { PrefixedBy(RSTLNE_ROW4[j], "dft,"); }
      else if j == 8 { PrefixedBy(RSTLNE_ROW4[j], "dft,"); }
      else if j == 9 { PrefixedBy(RSTLNE_ROW4[j], "dft,"); }
      else if j == 10 { PrefixedBy(RSTLNE_ROW4[j], "lyh,"); }
      else if j == 11 { PrefixedBy(RSTLNE_ROW4[j], "dft,"); }
      else if j == 12 { PrefixedBy(RSTLNE_ROW4[j], "dft,"); }
      else if j == 13 { PrefixedBy(RSTLNE_ROW4[j], "dft,"); }
      else if j == 14 { PrefixedBy(RSTLNE_ROW4[j], "dft,"); }
      else { PrefixedBy(RSTLNE_ROW4[j], "dft,"); }
    }
  }

  /** Row 0 of `ERGOONE_1`: every entry is recognised. */
  lemma FunctionLayerRow0()
    ensures AllRecognised(LAYER1_ROW0)
  {
    forall j | 0 <= j < 16
      ensures Recognised(LAYER1_ROW0[j])
    {
      if j == 0 { assert LAYER1_ROW0[j] == "transparent"; }
      else if j == 1 { PrefixedBy(LAYER1_ROW0[j], "dft,"); }
      else if j == 2 { PrefixedBy(LAYER1_ROW0[j], "dft,"); }
      else if j == 3 { PrefixedBy(LAYER1_ROW0[j], "dft,"); }
      else if j == 4 { PrefixedBy(LAYER1_ROW0[j], "dft,"); }
      else if j == 5 { PrefixedBy(LAYER1_ROW0[j], "dft,"); }
      else if j == 6 { assert LAYER1_ROW0[j] == "transparent"; }
      else if j == 7 { assert LAYER1_ROW0[j] == "transparent"; }
      else if j == 8 { assert LAYER1_ROW0[j] == "transparent"; }
      else if j == 9 { assert LAYER1_ROW0[j] == "transparent"; }
      else if j == 10 { PrefixedBy(LAYER1_ROW0[j], "dft,"); }
      else if j == 11 { PrefixedBy(LAYER1_ROW0[j], "dft,"); }
      else if j == 12 { PrefixedBy(LAYER1_ROW0[j], "dft,"); }
      else if j == 13 { PrefixedBy(LAYER1_ROW0[j], "dft,"); }
      else if j == 14 { PrefixedBy(LAYER1_ROW0[j], "dft,"); }
      else { PrefixedBy(LAYER1_ROW0[j], "dft,"); }
    }
  }

  /** Row 1 of `ERGOONE_1`: every entry is recognised. */
  lemma FunctionLayerRow1()
    ensures AllRecognised(LAYER1_ROW1)
  {
    forall j | 0 <= j < 16
      ensures Recognised(LAYER1_ROW1[j])
    {
      if j == 0 { assert LAYER1_ROW1[j] == "transparent"; }
      else if j == 1 { assert LAYER1_ROW1[j] == "transparent"; }
      else if j == 2 { PrefixedBy(LAYER1_ROW1[j], "dft,"); }
      else if j == 3 { assert LAYER1_ROW1[j] == "transparent"; }
      else if j == 4 { assert LAYER1_ROW1[j] == "transparent"; }
      else if j == 5 { assert LAYER1_ROW1[j] == "transparent"; }
      else if j == 6 { assert LAYER1_ROW1[j] == "transparent"; }
      else if j == 7 { assert LAYER1_ROW1[j] == "transparent"; }
      else if j == 8 { assert LAYER1_ROW1[j] == "transparent"; }
      else if j == 9 { assert LAYER1_ROW1[j] == "transparent"; }
      else if j == 10 { assert LAYER1_ROW1[j] == "transparent"; }
      else if j == 11 { PrefixedBy(LAYER1_ROW1[j], "dft,"); }
      else if j == 12 { PrefixedBy(LAYER1_ROW1[j], "dft,"); }
      else if j == 13 { PrefixedBy(LAYER1_ROW1[j], "dft,"); }
      else if j == 14 { assert LAYER1_ROW1[j] == "transparent"; }
      else { PrefixedBy(LAYER1_ROW1[j], "dft,"); }
    }
  }

  /** Row 2 of `ERGOONE_1`: every entry is recognised. */
  lemma FunctionLayerRow2()
    ensures AllRecognised(LAYER1_ROW2)
  {
    forall j | 0 <= j < 16
      ensures Recognised(LAYER1_ROW2[j])
    {
      if j == 0 { assert LAYER1_ROW2[j] == "transparent"; }
      else if j == 1 { PrefixedBy(LAYER1_ROW2[j], "dft,"); }
      else if j == 2 { PrefixedBy(LAYER1_ROW2[j], "dft,"); }
      else if j == 3 { PrefixedBy(LAYER1_ROW2[j], "dft,"); }
      else if j == 4 { assert LAYER1_ROW2[j] == "transparent"; }
      else if j == 5 { assert LAYER1_ROW2[j] == "transparent"; }
      else if j == 6 { assert LAYER1_ROW2[j] == "transparent"; }
      else if j == 7 { assert LAYER1_ROW2[j] == "transparent"; }
      else if j == 8 { assert LAYER1_ROW2[j] == "transparent"; }
      else if j == 9 { assert LAYER1_ROW2[j] == "transparent"; }
      else if j == 10 { assert LAYER1_ROW2[j] == "transparent"; }
      else if j == 11 { PrefixedBy(LAYER1_ROW2[j], "dft,"); }
      else if j == 12 { PrefixedBy(LAYER1_ROW2[j], "dft,"); }
      else if j == 13 { PrefixedBy(LAYER1_ROW2[j], "dft,"); }
      else if j == 14 { assert LAYER1_ROW2[j] == "transparent"; }
      else { assert LAYER1_ROW2[j] == "transparent"; }
    }
  }

  /** Row 3 of `ERGOONE_1`: every entry is recognised. */
  lemma FunctionLayerRow3()
    ensures AllRecognised(LAYER1_ROW3)
  {
    forall j | 0 <= j < 16
      ensures Recognised(LAYER1_ROW3[j])
    {
      if j == 0 { assert LAYER1_ROW3[j] == "transparent"; }
      else if j == 1 { assert LAYER1_ROW3[j] == "transparent"; }
      else if j == 2 { assert LAYER1_ROW3[j] == "transparent"; }
      else if j == 3 { assert LAYER1_ROW3[j] == "transparent"; }
      else if j == 4 { assert LAYER1_ROW3[j] == "transparent"; }
      else if j == 5 { assert LAYER1_ROW3[j] == "transparent"; }
      else if j == 6 { assert LAYER1_ROW3[j] == "transparent"; }
      else if j == 7 { assert LAYER1_ROW3[j] == "transparent"; }
      else if j == 8 { assert LAYER1_ROW3[j] == "transparent"; }
      else if j == 9 { PrefixedBy(LAYER1_ROW3[j], "dft,"); }
      else if j == 10 { assert LAYER1_ROW3[j] == "transparent"; }
      else if j == 11 { PrefixedBy(LAYER1_ROW3[j], "dft,"); }
      else if j == 12 { PrefixedBy(LAYER1_ROW3[j], "dft,"); }
      else if j == 13 { PrefixedBy(LAYER1_ROW3[j], "dft,"); }
      else if j == 14 { assert LAYER1_ROW3[j] == "transparent"; }
      else { assert LAYER1_ROW3[j] == "transparent"; }
    }
  }

  /** Row 4 of `ERGOONE_1`: every entry is recognised. */
  lemma FunctionLayerRow4()
    ensures AllRecognised(LAYER1_ROW4)
  {
    forall j | 0 <= j < 16
      ensures Recognised(LAYER1_ROW4[j])
    {
      if j == 0 { assert LAYER1_ROW4[j] == "transparent"; }
      else if j == 1 { assert LAYER1_ROW4[j] == "transparent"; }
      else if j == 2 { assert LAYER1_ROW4[j] == "transparent"; }
      else if j == 3 { assert LAYER1_ROW4[j] == "transparent"; }
      else if j == 4 { assert LAYER1_ROW4[j] == "transparent"; }
      else if j == 5 { PrefixedBy(LAYER1_ROW4[j], "sst,"); }
      else if j == 6 { assert LAYER1_ROW4[j] == "transparent"; }
      else if j == 7 { assert LAYER1_ROW4[j] == "transparent"; }
      else if j == 8 { assert LAYER1_ROW4[j] == "transparent"; }
      else if j == 9 { assert LAYER1_ROW4[j] == "transparent"; }
      else if j == 10 { assert LAYER1_ROW4[j] == "transparent"; }
      else if j == 11 { PrefixedBy(LAYER1_ROW4[j], "dft,"); }
      else if j == 12 { assert LAYER1_ROW4[j] == "transparent"; }
      else if j == 13 { assert LAYER1_ROW4[j] == "transparent"; }
      else if j == 14 { assert LAYER1_ROW4[j] == "transparent"; }
      else { assert LAYER1_ROW4[j] == "transparent"; }
    }
  }

  /** Row 0 of `ERGOONE_QWERTY`: every entry is a prefixed constructor call. */
  lemma QwertyRow0()
    ensures AllPrefixed(QWERTY_ROW0)
  {
    forall j | 0 <= j < 16
      ensures Prefixed(QWERTY_ROW0[j])
    {
      if j == 0 { PrefixedBy(QWERTY_ROW0[j], "dft,"); }
      else if j == 1 { PrefixedBy(QWERTY_ROW0[j], "dft,"); }
      else if j == 2 { PrefixedBy(QWERTY_ROW0[j], "dft,"); }
      else if j == 3 { PrefixedBy(QWERTY_ROW0[j], "dft,"); }
      else if j == 4 { PrefixedBy(QWERTY_ROW0[j], "dft,"); }
      else if j == 5 { PrefixedBy(QWERTY_ROW0[j], "dft,"); }
      else if j == 6 { PrefixedBy(QWERTY_ROW0[j], "rgk,"); }
      else if j == 7 { PrefixedBy(QWERTY_ROW0[j], "dft,"); }
      else if j == 8 { PrefixedBy(QWERTY_ROW0[j], "dft,"); }
      else if j == 9 { PrefixedBy(QWERTY_ROW0[j], "dft,"); }
      else if j == 10 { PrefixedBy(QWERTY_ROW0[j], "dft,"); }
      else if j == 11 { PrefixedBy(QWERTY_ROW0[j], "dft,"); }
      else if j == 12 { PrefixedBy(QWERTY_ROW0[j], "dft,"); }
      else if j == 13 { PrefixedBy(QWERTY_ROW0[j], "dft,"); }
      else if j == 14 { PrefixedBy(QWERTY_ROW0[j], "dft,"); }
      else { PrefixedBy(QWERTY_ROW0[j], "dft,"); }
    }
  }

  /** Row 1 of `ERGOONE_QWERTY`: every entry is a prefixed constructor call. */
  lemma QwertyRow1()
    ensures AllPrefixed(QWERTY_ROW1)
  {
    forall j | 0 <= j < 16
      ensures Prefixed(QWERTY_ROW1[j])
    {
      if j == 0 { PrefixedBy(QWERTY_ROW1[j], "dft,"); }
      else if j == 1 { PrefixedBy(QWERTY_ROW1[j], "dft,"); }
      else if j == 2 { PrefixedBy(QWERTY_ROW1[j], "dft,"); }
      else if j == 3 { PrefixedBy(QWERTY_ROW1[j], "dft,"); }
      else if j == 4 { PrefixedBy(QWERTY_ROW1[j], "dft,"); }
      else if j == 5 { PrefixedBy(QWERTY_ROW1[j], "dft,"); }
      else if j == 6 { PrefixedBy(QWERTY_ROW1[j], "rgk,"); }
      else if j == 7 { PrefixedBy(QWERTY_ROW1[j], "dft,"); }
      else if j == 8 { PrefixedBy(QWERTY_ROW1[j], "dft,"); }
      else if j == 9 { PrefixedBy(QWERTY_ROW1[j], "dft,"); }
      else if j == 10 { PrefixedBy(QWERTY_ROW1[j], "dft,"); }
      else if j == 11 { PrefixedBy(QWERTY_ROW1[j], "dft,"); }
      else if j == 12 { PrefixedBy(QWERTY_ROW1[j], "dft,"); }
      else if j == 13 { PrefixedBy(QWERTY_ROW1[j], "dft,"); }
      else if j == 14 { PrefixedBy(QWERTY_ROW1[j], "dft,"); }
      else { PrefixedBy(QWERTY_ROW1[j], "dft,"); }
    }
  }

  /** Row 2 of `ERGOONE_QWERTY`: every entry is a prefixed constructor call. */
  lemma QwertyRow2()
    ensures AllPrefixed(QWERTY_ROW2)
  {
    forall j | 0 <= j < 16
      ensures Prefixed(QWERTY_ROW2[j])
    {
      if j == 0 { PrefixedBy(QWERTY_ROW2[j], "mdt,"); }
      else if j == 1 { PrefixedBy(QWERTY_ROW2[j], "dft,"); }
      else if j == 2 { PrefixedBy(QWERTY_ROW2[j], "dft,"); }
      else if j == 3 { PrefixedBy(QWERTY_ROW2[j], "dft,"); }
      else if j == 4 { PrefixedBy(QWERTY_ROW2[j], "dft,"); }
      else if j == 5 { PrefixedBy(QWERTY_ROW2[j], "dft,"); }
      else if j == 6 { PrefixedBy(QWERTY_ROW2[j], "dft,"); }
      else if j == 7 { PrefixedBy(QWERTY_ROW2[j], "dft,"); }
      else if j == 8 { PrefixedBy(QWERTY_ROW2[j], "dft,"); }
      else if j == 9 { PrefixedBy(QWERTY_ROW2[j], "dft,"); }
      else if j == 10 { PrefixedBy(QWERTY_ROW2[j], "dft,"); }
      else if j == 11 { PrefixedBy(QWERTY_ROW2[j], "dft,"); }
      else if j == 12 { PrefixedBy(QWERTY_ROW2[j], "dft,"); }
      else if j == 13 { PrefixedBy(QWERTY_ROW2[j], "dft,"); }
      else if j == 14 { PrefixedBy(QWERTY_ROW2[j], "dft,"); }
      else { PrefixedBy(QWERTY_ROW2[j], "dft,"); }
    }
  }

  /** Row 3 of `ERGOONE_QWERTY`: every entry is a prefixed constructor call. */
  lemma QwertyRow3()
    ensures AllPrefixed(QWERTY_ROW3)
  {
    forall j | 0 <= j < 16
      ensures Prefixed(QWERTY_ROW3[j])
    {
      if j == 0 { PrefixedBy(QWERTY_ROW3[j], "dft,"); }
      else if j == 1 { PrefixedBy(QWERTY_ROW3[j], "dft,"); }
      else if j == 2 { PrefixedBy(QWERTY_ROW3[j], "dft,"); }
      else if j == 3 { PrefixedBy(QWERTY_ROW3[j], "dft,"); }
      else if j == 4 { PrefixedBy(QWERTY_ROW3[j], "dft,"); }
      else if j == 5 { PrefixedBy(QWERTY_ROW3[j], "dft,"); }
      else if j == 6 { PrefixedBy(QWERTY_ROW3[j], "mdc,"); }
      else if j == 7 { PrefixedBy(QWERTY_ROW3[j], "dft,"); }
      else if j == 8 { PrefixedBy(QWERTY_ROW3[j], "dft,"); }
      else if j == 9 { PrefixedBy(QWERTY_ROW3[j], "dft,"); }
      else if j == 10 { PrefixedBy(QWERTY_ROW3[j], "dft,"); }
      else if j == 11 { PrefixedBy(QWERTY_ROW3[j], "dft,"); }
      else if j == 12 { PrefixedBy(QWERTY_ROW3[j], "dft,"); }
      else if j == 13 { PrefixedBy(QWERTY_ROW3[j], "dft,"); }
      else if j == 14 { PrefixedBy(QWERTY_ROW3[j], "dft,"); }
      else { PrefixedBy(QWERTY_ROW3[j], "dft,"); }
    }
  }

  /** Row 4 of `ERGOONE_QWERTY`: every entry is a prefixed constructor call. */
  lemma QwertyRow4()
    ensures AllPrefixed(QWERTY_ROW4)
  {
    forall j | 0 <= j < 16
      ensures Prefixed(QWERTY_ROW4[j])
    {
      if j == 0 { PrefixedBy(QWERTY_ROW4[j], "dft,"); }
      else if j == 1 { PrefixedBy(QWERTY_ROW4[j], "dft,"); }
      else if j == 2 { PrefixedBy(QWERTY_ROW4[j], "dft,"); }
      else if j == 3 { PrefixedBy(QWERTY_ROW4[j], "dft,"); }
      else if j == 4 { PrefixedBy(QWERTY_ROW4[j], "dft,"); }
      else if j == 5 { PrefixedBy(QWERTY_ROW4[j], "dft,"); }
      else if j == 6 { PrefixedBy(QWERTY_ROW4[j], "dft,"); }
      else if j == 7 { PrefixedBy(QWERTY_ROW4[j], "dft,"); }
      else if j == 8 { PrefixedBy(QWERTY_ROW4[j], "dft,"); }
      else if j == 9 { PrefixedBy(QWERTY_ROW4[j], "dft,"); }
      else if j == 10 { PrefixedBy(QWERTY_ROW4[j], "dft,"); }
      else if j == 11 { PrefixedBy(QWERTY_ROW4[j], "dft,"); }
      else if j == 12 { PrefixedBy(QWERTY_ROW4[j], "dft,"); }
      else if j == 13 { PrefixedBy(QWERTY_ROW4[j], "dft,"); }
      else if j == 14 { PrefixedBy(QWERTY_ROW4[j], "dft,"); }
      else { PrefixedBy(QWERTY_ROW4[j], "dft,"); }
    }
  }

  /** Each layout has one entry per key of the 5 by 16 matrix. */
  lemma LayoutSizes()
    ensures |ERGOONE_RSTLNE| == 5 * 16 && |ERGOONE_1| == 5 * 16 && |ERGOONE_QWERTY| == 5 * 16
  {
  }

  /** Every entry of the layout is a prefixed constructor call. */
  predicate AllPrefixed(v: seq<string>)
  {
    forall i | 0 <= i < |v| :: Prefixed(v[i])
  }

  /** Every entry of the layout is recognised: empty, `transparent` or prefixed. */
  predicate AllRecognised(v: seq<string>)
  {
    forall i | 0 <= i < |v| :: Recognised(v[i])
  }

  /** Layouts joined row after row keep every entry prefixed. */
  lemma AllPrefixedConcat(a: seq<string>, b: seq<string>)
    requires AllPrefixed(a) && AllPrefixed(b)
    ensures AllPrefixed(a + b)
  {
    forall i | 0 <= i < |a + b|
      ensures Prefixed((a + b)[i])
    {
      if i < |a| { assert (a + b)[i] == a[i]; } else { assert (a + b)[i] == b[i - |a|]; }
    }
  }

  /** Layouts joined row after row keep every entry recognised. */
  lemma AllRecognisedConcat(a: seq<string>, b: seq<string>)
    requires AllRecognised(a) && AllRecognised(b)
    ensures AllRecognised(a + b)
  {
    forall i | 0 <= i < |a + b|
      ensures Recognised((a + b)[i])
    {
      if i < |a| { assert (a + b)[i] == a[i]; } else { assert (a + b)[i] == b[i - |a|]; }
    }
  }

  /** A prefixed entry never builds a transparent cell and never falls back to Default `EEEEEEEE`. */
  lemma PrefixedCell(sel: string)
    requires Prefixed(sel)
    ensures !Classify(sel).TransparentNew? && !Classify(sel).DefaultOf?
    ensures Classify(sel) != DefaultFrom("EEEEEEEE") || sel == "dft,EEEEEEEE"
  {
    assert sel == sel[..4] + sel[4..];
  }

  /**
   * The two base layers consist of prefixed entries only: neither has a transparent cell and
   * neither leaves a cell to the loader's fallback.
   */
  lemma BaseLayersOpaque()
    ensures AllPrefixed(ERGOONE_RSTLNE) && AllPrefixed(ERGOONE_QWERTY)
    ensures forall i | 0 <= i < |ERGOONE_RSTLNE| :: !Classify(ERGOONE_RSTLNE[i]).TransparentNew?
    ensures forall i | 0 <= i < |ERGOONE_QWERTY| :: !Classify(ERGOONE_QWERTY[i]).TransparentNew?
  {
    RstlneRow0(); RstlneRow1(); RstlneRow2(); RstlneRow3(); RstlneRow4();
    AllPrefixedConcat(RSTLNE_ROW0, RSTLNE_ROW1);
    AllPrefixedConcat(RSTLNE_ROW0 + RSTLNE_ROW1, RSTLNE_ROW2);
    AllPrefixedConcat(RSTLNE_ROW0 + RSTLNE_ROW1 + RSTLNE_ROW2, RSTLNE_ROW3);
    AllPrefixedConcat(RSTLNE_ROW0 + RSTLNE_ROW1 + RSTLNE_ROW2 + RSTLNE_ROW3, RSTLNE_ROW4);
    QwertyRow0(); QwertyRow1(); QwertyRow2(); QwertyRow3(); QwertyRow4();
    AllPrefixedConcat(QWERTY_ROW0, QWERTY_ROW1);
    AllPrefixedConcat(QWERTY_ROW0 + QWERTY_ROW1, QWERTY_ROW2);
    AllPrefixedConcat(QWERTY_ROW0 + QWERTY_ROW1 + QWERTY_ROW2, QWERTY_ROW3);
    AllPrefixedConcat(QWERTY_ROW0 + QWERTY_ROW1 + QWERTY_ROW2 + QWERTY_ROW3, QWERTY_ROW4);
    forall i | 0 <= i < |ERGOONE_RSTLNE|
      ensures !Classify(ERGOONE_RSTLNE[i]).TransparentNew?
    {
      PrefixedCell(ERGOONE_RSTLNE[i]);
    }
    forall i | 0 <= i < |ERGOONE_QWERTY|
      ensures !Classify(ERGOONE_QWERTY[i]).TransparentNew?
    {
      PrefixedCell(ERGOONE_QWERTY[i]);
    }
  }

  /**
   * Every entry of the function layer is recognised, and it does have transparent cells,
   * starting with its first.
   */
  lemma FunctionLayerTransparent()
    ensures forall i | 0 <= i < |ERGOONE_1| :: Recognised(ERGOONE_1[i])
    ensures Classify(ERGOONE_1[0]).TransparentNew?
  {
    FunctionLayerRow0(); FunctionLayerRow1(); FunctionLayerRow2(); FunctionLayerRow3(); FunctionLayerRow4();
    AllRecognisedConcat(LAYER1_ROW0, LAYER1_ROW1);
    AllRecognisedConcat(LAYER1_ROW0 + LAYER1_ROW1, LAYER1_ROW2);
    AllRecognisedConcat(LAYER1_ROW0 + LAYER1_ROW1 + LAYER1_ROW2, LAYER1_ROW3);
    AllRecognisedConcat(LAYER1_ROW0 + LAYER1_ROW1 + LAYER1_ROW2 + LAYER1_ROW3, LAYER1_ROW4);
    assert AllRecognised(ERGOONE_1);
    ClassifyTransparent(ERGOONE_1[0]);
  }
}
