/** Overlaying environment variables on a configuration struct, in place.  A struct is laid
    out in consecutive memory slots, one per scalar field, nested structs inline. */
module EnvOverlay {
  import opened Platform

  datatype Width = W8 | W16 | W32 | W64

  datatype Kind = StringKind | IntKind(width: Width) | BoolKind | OtherKind

  datatype Type = Scalar(kind: Kind) | Struct(fields: seq<Field>)

  /** `settable` is false for an unexported field; `tag` is the env tag, empty when absent. */
  datatype Field = Field(settable: bool, tag: string, ty: Type)

  datatype Value = Str(s: string) | Int(n: int) | Bool(b: bool) | Other

  /** The process environment and the case mapping applied to prefix and tag. */
  datatype Env = Env(vars: map<string, string>, upper: string -> string)

  // ---------- Parsing ----------

  predicate IsDigit(c: char) { '0' <= c <= '9' }

  predicate AllDigits(s: string) { forall i | 0 <= i < |s| :: IsDigit(s[i]) }

  function Digits(s: string): nat
    requires AllDigits(s)
  {
    if s == [] then 0 else Digits(s[..|s| - 1]) * 10 + (s[|s| - 1] as int - '0' as int)
  }

  /** Base ten, optional sign, 64 bits. */
  function ParseInt(s: string): Option<int> {
    var digits := if s != "" && (s[0] == '+' || s[0] == '-') then s[1..] else s;
    if digits == "" || !AllDigits(digits) then None
    else
      var n := (if s[0] == '-' then -1 else 1) * Digits(digits);
      if -0x8000_0000_0000_0000 <= n < 0x8000_0000_0000_0000 then Some(n) else None
  }

  function ParseBool(s: string): Option<bool> {
    if s in {"1", "t", "T", "true", "TRUE", "True"} then Some(true)
    else if s in {"0", "f", "F", "false", "FALSE", "False"} then Some(false)
    else None
  }

  function Modulus(w: Width): int {
    match w
    case W8 => 0x100
    case W16 => 0x1_0000
    case W32 => 0x1_0000_0000
    case W64 => 0x1_0000_0000_0000_0000
  }

  predicate Fits(n: int, w: Width) { -(Modulus(w) / 2) <= n < Modulus(w) / 2 }

  /** What a signed field of this width keeps of n. */
  function Truncate(n: int, w: Width): int {
    (n + Modulus(w) / 2) % Modulus(w) - Modulus(w) / 2
  }

  /** The low bits and nothing else: in range, and equal to n up to a multiple of 2^width. */
  lemma TruncateKeepsLowBits(n: int, w: Width) returns (q: int)
    ensures Fits(Truncate(n, w), w)
    ensures n == Truncate(n, w) + q * Modulus(w)
    ensures Fits(n, w) ==> Truncate(n, w) == n
  {
    var m := Modulus(w);
    q := (n + m / 2) / m;
    DivMod(n + m / 2, m);
  }

  lemma DivMod(x: int, m: int)
    requires m > 0
    ensures x == x / m * m + x % m && 0 <= x % m < m
    ensures 0 <= x < m ==> x % m == x
  {
  }

  /** The number a signed field of each width holds for a parsed n: n up to whole wraps. */
  lemma TruncateByWidth(n: int) returns (q8: int, q16: int, q32: int)
    ensures -0x80 <= Truncate(n, W8) < 0x80 && n == Truncate(n, W8) + q8 * 0x100
    ensures -0x8000 <= Truncate(n, W16) < 0x8000 && n == Truncate(n, W16) + q16 * 0x1_0000
    ensures -0x8000_0000 <= Truncate(n, W32) < 0x8000_0000 && n == Truncate(n, W32) + q32 * 0x1_0000_0000
    ensures -0x8000_0000_0000_0000 <= n < 0x8000_0000_0000_0000 ==> Truncate(n, W64) == n
  {
    q8 := TruncateKeepsLowBits(n, W8);
    q16 := TruncateKeepsLowBits(n, W16);
    q32 := TruncateKeepsLowBits(n, W32);
    var _ := TruncateKeepsLowBits(n, W64);
  }

  function FormatNat(n: nat): (s: string)
    ensures s != "" && AllDigits(s)
  {
    var d := [('0' as int + n % 10) as char];
    if n < 10 then d else FormatNat(n / 10) + d
  }

  function FormatInt(n: int): string {
    if n < 0 then "-" + FormatNat(-n) else FormatNat(n)
  }

  lemma {:induction false} DigitsOfFormat(n: nat)
    ensures Digits(FormatNat(n)) == n
  {
    var d := [('0' as int + n % 10) as char];
    if n < 10 {
      assert d[..0] == [];
    } else {
      DigitsOfFormat(n / 10);
      assert (FormatNat(n / 10) + d)[..|FormatNat(n / 10)|] == FormatNat(n / 10);
    }
  }

  /** A number in decimal is read back as itself exactly if it has 64 bits. */
  lemma ParseIntOfFormat(n: int)
    ensures ParseInt(FormatInt(n)) ==
      if -0x8000_0000_0000_0000 <= n <= 0x7FFF_FFFF_FFFF_FFFF then Some(n) else None
  {
    var a := if n < 0 then -n else n;
    DigitsOfFormat(a);
    if n < 0 {
      assert FormatInt(n)[1..] == FormatNat(a);
    } else {
      assert IsDigit(FormatNat(a)[0]);
    }
  }

  /** Writing a number into the environment and overlaying it stores that number, in every
      field wide enough for it. */
  lemma IntRoundTrip(n: int, w: Width, held: Value)
    requires Fits(n, w)
    ensures ParseInt(FormatInt(n)) == Some(n)
    ensures Assign(IntKind(w), FormatInt(n), held) == Int(n)
  {
    ParseIntOfFormat(n);
    var _ := TruncateKeepsLowBits(n, w);
  }

  /** What is not a decimal number, with at most a sign in front, is not parsed; a plus sign
      changes nothing. */
  lemma ParseIntShape(s: string)
    ensures ParseInt(s).Some? ==> s != "" && forall i | 0 < i < |s| :: '0' <= s[i] <= '9'
    ensures ParseInt(s).Some? ==> '0' <= s[0] <= '9' || (s[0] in {'+', '-'} && |s| > 1)
    ensures s != "" && '0' <= s[0] <= '9' ==> ParseInt("+" + s) == ParseInt(s)
  {
    if ParseInt(s).Some? {
      var digits := if s[0] == '+' || s[0] == '-' then s[1..] else s;
      assert forall i | 0 <= i < |digits| :: IsDigit(digits[i]);
      assert forall i | 0 < i < |s| :: IsDigit(s[i]) by {
        forall i | 0 < i < |s| ensures IsDigit(s[i]) {
          assert s[i] == if digits == s then digits[i] else digits[i - 1];
        }
      }
    }
    assert ("+" + s)[1..] == s;
  }

  // ---------- One field ----------

  /** A set variable overwrites a field it can be parsed for. */
  function Assign(kind: Kind, val: string, held: Value): Value {
    match kind
    case StringKind => Str(val)
    case IntKind(w) => (match ParseInt(val) case Some(n) => Int(Truncate(n, w)) case None => held)
    case BoolKind => (match ParseBool(val) case Some(b) => Bool(b) case None => held)
    case OtherKind => held
  }

  function PrefixedKey(env: Env, prefix: string, tag: string): string {
    env.upper(prefix) + "_" + env.upper(tag)
  }

  function BareKey(env: Env, tag: string): string { env.upper(tag) }

  /** The value a tagged scalar ends with: the prefixed variable if set, else the bare one. */
  function Resolve(env: Env, prefix: string, tag: string, kind: Kind, held: Value): Value {
    if tag == "" then held
    else if PrefixedKey(env, prefix, tag) in env.vars then
      Assign(kind, env.vars[PrefixedKey(env, prefix, tag)], held)
    else if BareKey(env, tag) in env.vars then Assign(kind, env.vars[BareKey(env, tag)], held)
    else held
  }

  // ---------- Layout ----------

  function Size(ty: Type): nat
    decreases ty
  {
    match ty
    case Scalar(_) => 1
    case Struct(fields) => SizeAll(fields)
  }

  function SizeAll(fields: seq<Field>): nat
    decreases fields
  {
    if fields == [] then 0 else Size(fields[0].ty) + SizeAll(fields[1..])
  }

  // ---------- The overlay as a recursive function on memory ----------

  /** Memory m after the walk has done the struct with these fields at slot `at`. */
  function Overlay(env: Env, prefix: string, fields: seq<Field>, m: seq<Value>, at: nat): (r: seq<Value>)
    requires at + SizeAll(fields) <= |m|
    ensures |r| == |m|
    decreases fields
  {
    if fields == [] then m
    else
      var f := fields[0];
      var done :=
        if !f.settable then m
        else match f.ty
          case Struct(inner) => Overlay(env, prefix, inner, m, at)
          case Scalar(kind) => m[at := Resolve(env, prefix, f.tag, kind, m[at])];
      Overlay(env, prefix, fields[1..], done, at + Size(f.ty))
  }

  /** The walk stays inside the struct it was given. */
  lemma {:induction false} OverlayFrame(env: Env, prefix: string, fields: seq<Field>, m: seq<Value>, at: nat, o: nat)
    requires at + SizeAll(fields) <= |m| && o < |m|
    requires o < at || at + SizeAll(fields) <= o
    ensures Overlay(env, prefix, fields, m, at)[o] == m[o]
    decreases fields
  {
    if fields != [] {
      var f := fields[0];
      var done := m;
      if f.settable {
        match f.ty
        case Struct(inner) =>
          OverlayFrame(env, prefix, inner, m, at, o);
          done := Overlay(env, prefix, inner, m, at);
        case Scalar(kind) =>
          done := m[at := Resolve(env, prefix, f.tag, kind, m[at])];
      }
      OverlayFrame(env, prefix, fields[1..], done, at + Size(f.ty), o);
    }
  }

  // ---------- The overlay pointwise, by field path ----------

  /** A path of field numbers from the outermost struct down to a scalar. */
  predicate IsPath(fields: seq<Field>, path: seq<nat>)
    decreases path
  {
    path != [] && path[0] < |fields| &&
    match fields[path[0]].ty
    case Scalar(_) => |path| == 1
    case Struct(inner) => IsPath(inner, path[1..])
  }

  function Leaf(fields: seq<Field>, path: seq<nat>): (f: Field)
    requires IsPath(fields, path)
    ensures f.ty.Scalar?
    decreases path
  {
    match fields[path[0]].ty
    case Scalar(_) => fields[path[0]]
    case Struct(inner) => Leaf(inner, path[1..])
  }

  /** Every field on the way is exported. */
  predicate Open(fields: seq<Field>, path: seq<nat>)
    requires IsPath(fields, path)
    decreases path
  {
    fields[path[0]].settable &&
    match fields[path[0]].ty
    case Scalar(_) => true
    case Struct(inner) => Open(inner, path[1..])
  }

  function Offset(fields: seq<Field>, path: seq<nat>): nat
    requires IsPath(fields, path)
    decreases path
  {
    SizeAll(fields[..path[0]]) +
    match fields[path[0]].ty
    case Scalar(_) => 0
    case Struct(inner) => Offset(inner, path[1..])
  }

  lemma {:induction false} SizeAllSplit(fields: seq<Field>, i: nat)
    requires i <= |fields|
    ensures SizeAll(fields) == SizeAll(fields[..i]) + SizeAll(fields[i..])
    decreases i
  {
    if i == 0 {
      assert fields[..0] == [] && fields[0..] == fields;
    } else {
      SizeAllSplit(fields[1..], i - 1);
      assert fields[..i][1..] == fields[1..][..i - 1];
      assert fields[1..][i - 1..] == fields[i..];
    }
  }

  lemma {:induction false} OffsetInBounds(fields: seq<Field>, path: seq<nat>)
    requires IsPath(fields, path)
    ensures Offset(fields, path) < SizeAll(fields)
    decreases path
  {
    var i := path[0];
    SizeAllSplit(fields, i);
    if fields[i].ty.Struct? {
      OffsetInBounds(fields[i].ty.fields, path[1..]);
    }
  }

  /** A path past the first field is a path among the others. */
  lemma PathTail(fields: seq<Field>, path: seq<nat>)
    requires IsPath(fields, path) && path[0] > 0
    ensures var rest := [path[0] - 1] + path[1..];
      && IsPath(fields[1..], rest)
      && Offset(fields, path) == Size(fields[0].ty) + Offset(fields[1..], rest)
      && Leaf(fields, path) == Leaf(fields[1..], rest)
      && Open(fields, path) == Open(fields[1..], rest)
  {
    var rest := [path[0] - 1] + path[1..];
    assert fields[1..][rest[0]] == fields[path[0]] && rest[1..] == path[1..];
    assert fields[..path[0]][1..] == fields[1..][..rest[0]];
  }

  /** The overlay, field by field: a scalar all of whose enclosing fields are exported ends
      with the resolved value, every other scalar keeps what it had. */
  lemma {:induction false} OverlayByPath(
    env: Env, prefix: string, fields: seq<Field>, m: seq<Value>, at: nat, path: seq<nat>)
    requires at + SizeAll(fields) <= |m| && IsPath(fields, path)
    ensures at + Offset(fields, path) < |m|
    ensures var o, leaf := at + Offset(fields, path), Leaf(fields, path);
      Overlay(env, prefix, fields, m, at)[o] ==
        if Open(fields, path) then Resolve(env, prefix, leaf.tag, leaf.ty.kind, m[o]) else m[o]
    decreases fields, path
  {
    OffsetInBounds(fields, path);
    var f, n, o := fields[0], Size(fields[0].ty), at + Offset(fields, path);
    var done := m;
    if f.settable {
      match f.ty
      case Struct(inner) =>
        done := Overlay(env, prefix, inner, m, at);
        if path[0] == 0 {
          OverlayByPath(env, prefix, inner, m, at, path[1..]);
        }
      case Scalar(kind) =>
        done := m[at := Resolve(env, prefix, f.tag, kind, m[at])];
    }
    if path[0] == 0 {
      assert fields[..0] == [];
      if f.ty.Struct? { OffsetInBounds(f.ty.fields, path[1..]); }
      OverlayFrame(env, prefix, fields[1..], done, at + n, o);
    } else {
      PathTail(fields, path);
      var rest := [path[0] - 1] + path[1..];
      if f.settable && f.ty.Struct? { OverlayFrame(env, prefix, f.ty.fields, m, at, o); }
      OverlayByPath(env, prefix, fields[1..], done, at + n, rest);
    }
  }

  /** And there is nothing else in memory: every slot is the slot of some path. */
  lemma {:induction false} EverySlotHasAPath(fields: seq<Field>, o: nat) returns (path: seq<nat>)
    requires o < SizeAll(fields)
    ensures IsPath(fields, path) && Offset(fields, path) == o
    decreases fields
  {
    var f, n := fields[0], Size(fields[0].ty);
    assert fields[..0] == [];
    if o < n {
      match f.ty
      case Scalar(_) => path := [0];
      case Struct(inner) =>
        var sub := EverySlotHasAPath(inner, o);
        path := [0] + sub;
        assert path[1..] == sub;
    } else {
      var rest := EverySlotHasAPath(fields[1..], o - n);
      path := [rest[0] + 1] + rest[1..];
      assert path[1..] == rest[1..] && fields[path[0]] == fields[1..][rest[0]];
      assert fields[..path[0]][1..] == fields[1..][..rest[0]];
    }
  }

  // ---------- Consequences ----------

  /** One field at a time: an unexported field keeps all its memory, nested or not; an exported
      struct ends as the overlay of its own fields; an untagged scalar keeps what it had. */
  lemma FieldByField(env: Env, prefix: string, fields: seq<Field>, m: seq<Value>, at: nat, i: nat, o: nat)
    requires at + SizeAll(fields) <= |m| && i < |fields|
    requires o < Size(fields[i].ty)
    ensures at + SizeAll(fields[..i]) + Size(fields[i].ty) <= |m|
    ensures var f, start := fields[i], at + SizeAll(fields[..i]);
      var r := Overlay(env, prefix, fields, m, at);
      && (!f.settable || (f.ty.Scalar? && f.tag == "") ==> r[start + o] == m[start + o])
      && (f.settable && f.ty.Struct? ==> r[start + o] == Overlay(env, prefix, f.ty.fields, m, start)[start + o])
  {
    var f, start := fields[i], at + SizeAll(fields[..i]);
    SizeAllSplit(fields, i);
    var path := [i];
    if f.ty.Struct? {
      var sub := EverySlotHasAPath(f.ty.fields, o);
      path := [i] + sub;
      assert path[1..] == sub;
      OverlayByPath(env, prefix, f.ty.fields, m, start, sub);
    }
    OverlayByPath(env, prefix, fields, m, at, path);
  }

  /** The variable that decides a tagged field, if either is set. */
  function Deciding(env: Env, prefix: string, tag: string): Option<string> {
    var prefixed, bare := env.upper(prefix) + "_" + env.upper(tag), env.upper(tag);
    if prefixed in env.vars then Some(env.vars[prefixed])
    else if bare in env.vars then Some(env.vars[bare])
    else None
  }

  /** What an exported, tagged scalar ends with, told by its text: the prefixed variable if
      set, else the bare one, is taken over as it is, as the truth value it spells, or as
      what `TruncateByWidth` keeps of the number it spells; if it spells none, or neither is set, or the kind is
      not handled, the field keeps what it had. */
  lemma StoredByText(env: Env, prefix: string, fields: seq<Field>, m: seq<Value>, at: nat, path: seq<nat>)
    requires at + SizeAll(fields) <= |m| && IsPath(fields, path) && Open(fields, path)
    requires Leaf(fields, path).tag != ""
    ensures at + Offset(fields, path) < |m|
    ensures var o, kind := at + Offset(fields, path), Leaf(fields, path).ty.kind;
      var r, d := Overlay(env, prefix, fields, m, at)[o], Deciding(env, prefix, Leaf(fields, path).tag);
      && (d.None? || kind.OtherKind? ==> r == m[o])
      && (d.Some? && kind.StringKind? ==> r == Str(d.value))
      && (d.Some? && kind.BoolKind? && d.value in {"1", "t", "T", "true", "TRUE", "True"} ==> r == Bool(true))
      && (d.Some? && kind.BoolKind? && d.value in {"0", "f", "F", "false", "FALSE", "False"} ==> r == Bool(false))
      && (d.Some? && kind.BoolKind? && ParseBool(d.value).None? ==> r == m[o])
      && (d.Some? && kind.IntKind? && ParseInt(d.value).Some? ==>
            r == Int(Truncate(ParseInt(d.value).value, kind.width)))
      && (d.Some? && kind.IntKind? && ParseInt(d.value).None? ==> r == m[o])
  {
    OverlayByPath(env, prefix, fields, m, at, path);
  }

  /** With only the bare variable set, it decides. */
  lemma BareKeyIsUsed(
    env: Env, prefix: string, fields: seq<Field>, m: seq<Value>, at: nat, path: seq<nat>, val: string)
    requires at + SizeAll(fields) <= |m| && IsPath(fields, path) && Open(fields, path)
    requires Leaf(fields, path).tag != "" && Leaf(fields, path).ty.kind.StringKind?
    requires env.upper(prefix) + "_" + env.upper(Leaf(fields, path).tag) !in env.vars
    ensures at + Offset(fields, path) < |m|
    ensures var with := env.(vars := env.vars[env.upper(Leaf(fields, path).tag) := val]);
      Overlay(with, prefix, fields, m, at)[at + Offset(fields, path)] == Str(val)
  {
    var bare := env.upper(Leaf(fields, path).tag);
    var with := env.(vars := env.vars[bare := val]);
    assert |env.upper(prefix) + "_" + bare| > |bare|;
    StoredByText(with, prefix, fields, m, at, path);
  }

  /** A prefixed variable wins over the bare one whatever the bare one says, even when it
      cannot be parsed: then the field keeps its value. */
  lemma PrefixedKeyWins(
    env: Env, prefix: string, fields: seq<Field>, m: seq<Value>, at: nat, path: seq<nat>, bare: string)
    requires at + SizeAll(fields) <= |m| && IsPath(fields, path) && Open(fields, path)
    requires Leaf(fields, path).tag != "" && PrefixedKey(env, prefix, Leaf(fields, path).tag) in env.vars
    ensures at + Offset(fields, path) < |m|
    ensures var o, leaf := at + Offset(fields, path), Leaf(fields, path);
      var val := env.vars[PrefixedKey(env, prefix, leaf.tag)];
      var other := env.(vars := env.vars[BareKey(env, leaf.tag) := bare]);
      var r := Overlay(env, prefix, fields, m, at);
      && r[o] == Overlay(other, prefix, fields, m, at)[o]
      && (leaf.ty.kind.StringKind? ==> r[o] == Str(val))
      && (leaf.ty.kind.IntKind? && ParseInt(val).None? ==> r[o] == m[o])
      && (leaf.ty.kind.BoolKind? && ParseBool(val).None? ==> r[o] == m[o])
  {
    var leaf := Leaf(fields, path);
    var other := env.(vars := env.vars[BareKey(env, leaf.tag) := bare]);
    OverlayByPath(env, prefix, fields, m, at, path);
    OverlayByPath(other, prefix, fields, m, at, path);
    assert |PrefixedKey(env, prefix, leaf.tag)| > |BareKey(env, leaf.tag)|;
  }

  /** The variables an overlay may look at: two per tagged scalar. */
  function Keys(env: Env, prefix: string, fields: seq<Field>): set<string>
    decreases fields
  {
    if fields == [] then {}
    else
      (match fields[0].ty
       case Scalar(_) =>
         if fields[0].tag == "" then {} else {PrefixedKey(env, prefix, fields[0].tag), BareKey(env, fields[0].tag)}
       case Struct(inner) => Keys(env, prefix, inner))
      + Keys(env, prefix, fields[1..])
  }

  predicate AgreeOn(a: map<string, string>, b: map<string, string>, keys: set<string>) {
    forall k | k in keys :: (k in a <==> k in b) && (k in a ==> a[k] == b[k])
  }

  /** Nothing else in the environment matters. */
  lemma {:induction false} OverlayReadsOnlyItsKeys(
    env: Env, vars: map<string, string>, prefix: string, fields: seq<Field>, m: seq<Value>, at: nat)
    requires at + SizeAll(fields) <= |m|
    requires AgreeOn(env.vars, vars, Keys(env, prefix, fields))
    ensures Overlay(env, prefix, fields, m, at) == Overlay(env.(vars := vars), prefix, fields, m, at)
    decreases fields
  {
    if fields != [] {
      var f := fields[0];
      var done := m;
      if f.settable {
        match f.ty
        case Struct(inner) =>
          OverlayReadsOnlyItsKeys(env, vars, prefix, inner, m, at);
          done := Overlay(env, prefix, inner, m, at);
        case Scalar(kind) =>
          done := m[at := Resolve(env, prefix, f.tag, kind, m[at])];
      }
      OverlayReadsOnlyItsKeys(env, vars, prefix, fields[1..], done, at + Size(f.ty));
    }
  }

  /** Applying the same environment again changes nothing. */
  lemma OverlayTwice(env: Env, prefix: string, fields: seq<Field>, m: seq<Value>, at: nat)
    requires at + SizeAll(fields) <= |m|
    ensures var once := Overlay(env, prefix, fields, m, at);
      Overlay(env, prefix, fields, once, at) == once
  {
    var once := Overlay(env, prefix, fields, m, at);
    forall o | 0 <= o < |m| ensures Overlay(env, prefix, fields, once, at)[o] == once[o] {
      if at <= o < at + SizeAll(fields) {
        var path := EverySlotHasAPath(fields, o - at);
        OverlayByPath(env, prefix, fields, m, at, path);
        OverlayByPath(env, prefix, fields, once, at, path);
      } else {
        OverlayFrame(env, prefix, fields, once, at, o);
      }
    }
  }

  // ---------- The walk itself ----------

  /** What the caller hands in. */
  datatype Target = NotAPointer | NilPointer | PointerTo(fields: seq<Field>, base: nat)

  /** Looks up a scalar's two keys and stores what it finds, if it can be parsed. */
  method ApplyScalar(env: Env, prefix: string, tag: string, kind: Kind, mem: array<Value>, at: nat)
    requires at < mem.Length
    modifies mem
    ensures mem[..] == old(mem[..])[at := Resolve(env, prefix, tag, kind, old(mem[at]))]
  {
    if tag == "" { return; }
    var key := env.upper(prefix) + "_" + env.upper(tag);
    if key !in env.vars {
      key := env.upper(tag);
    }
    if key !in env.vars { return; }
    var val := env.vars[key];
    match kind
    case StringKind =>
      mem[at] := Str(val);
    case IntKind(w) =>
      var n := ParseInt(val);
      if n.Some? { mem[at] := Int(Truncate(n.value, w)); }
    case BoolKind =>
      var b := ParseBool(val);
      if b.Some? { mem[at] := Bool(b.value); }
    case OtherKind =>
  }

  /** Overwrites the struct's fields in memory, recursing into nested structs. */
  method ApplyEnvValue(env: Env, prefix: string, fields: seq<Field>, mem: array<Value>, base: nat)
    requires base + SizeAll(fields) <= mem.Length
    modifies mem
    ensures mem[..] == Overlay(env, prefix, fields, old(mem[..]), base)
    decreases fields
  {
    var at: nat := base;
    for i := 0 to |fields|
      invariant at + SizeAll(fields[i..]) <= mem.Length
      invariant Overlay(env, prefix, fields, old(mem[..]), base) == Overlay(env, prefix, fields[i..], mem[..], at)
    {
      var f := fields[i];
      assert fields[i..][0] == f && fields[i..][1..] == fields[i + 1..];
      if f.settable {
        match f.ty
        case Struct(inner) => ApplyEnvValue(env, prefix, inner, mem, at);
        case Scalar(kind) => ApplyScalar(env, prefix, f.tag, kind, mem, at);
      }
      at := at + Size(f.ty);
    }
  }

  /** The struct pointed to ends with its overlay, and no other memory changes; a target
      that is not a usable pointer leaves everything alone. */
  method ApplyEnv(env: Env, prefix: string, dst: Target, mem: array<Value>)
    requires dst.PointerTo? ==> dst.base + SizeAll(dst.fields) <= mem.Length
    modifies mem
    ensures !dst.PointerTo? ==> mem[..] == old(mem[..])
    ensures dst.PointerTo? ==> mem[..] == Overlay(env, prefix, dst.fields, old(mem[..]), dst.base)
  {
    match dst
    case NotAPointer => return;
    case NilPointer => return;
    case PointerTo(fields, base) => ApplyEnvValue(env, prefix, fields, mem, base);
  }
}
