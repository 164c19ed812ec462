/**
 The file format of bytecode programs, and where the loader puts constants in its pool.
 */
module LoaderSpec {
  import opened Bytecode

  datatype LoadError =
    | BAD_HEADER
    | BAD_TAG     // an unknown kind of constant
    | TRUNCATED   // the file ends too early
    | POOL_FULL   // a constant reaches past the pool
    | BAD_ENTRY   // the entry point is not a constant

  datatype Res<+T> = Ok(value: T) | Err(error: LoadError) {
    predicate IsFailure() { Err? }
    function PropagateFailure<U>(): Res<U>
      requires Err?
    {
      Err(error)
    }
    function Extract(): T
      requires Ok?
    {
      value
    }
  }

  const CONST_POOL_SZ: nat := 0x1000_0000

  const TAG_INTEGER: Byte := 0
  const TAG_NULL: Byte := 1
  const TAG_STRING: Byte := 2
  const TAG_FUNCTION: Byte := 3
  const TAG_BOOLEAN: Byte := 4
  const TAG_CLASS: Byte := 5

  // -------------------------------------------------------------------- numbers

  // Four bytes, the lowest first.
  function U32(d: seq<Byte>, at: nat): (n: nat)
    requires at + 3 < |d|
    ensures n < 0x1_0000_0000
  {
    d[at] as nat + 0x100 * (d[at + 1] as nat) + 0x1_0000 * (d[at + 2] as nat) + 0x100_0000 * (d[at + 3] as nat)
  }

  // An unsigned 32-bit number as two's complement.
  function Signed(n: nat): (i: int)
    requires n < 0x1_0000_0000
    ensures -0x8000_0000 <= i < 0x8000_0000 && (n - i) % 0x1_0000_0000 == 0
  {
    if n < 0x8000_0000 then n else n - 0x1_0000_0000
  }

  function Unsigned(i: int): (n: nat)
    requires -0x8000_0000 <= i < 0x8000_0000
    ensures n < 0x1_0000_0000 && Signed(n) == i
  {
    if i >= 0 then i else i + 0x1_0000_0000
  }

  function PutU32(n: nat): seq<Byte> {
    [Byte0(n), Byte0(n / 0x100), Byte0(n / 0x1_0000), Byte0(n / 0x100_0000)]
  }

  function PutU16s(ns: seq<nat>): (d: seq<Byte>)
    ensures |d| == 2 * |ns|
  {
    if ns == [] then [] else PutU16(ns[0]) + PutU16s(ns[1..])
  }

  function GetU16s(d: seq<Byte>, at: nat, n: nat): (ns: seq<nat>)
    requires at + 2 * n <= |d|
    ensures |ns| == n && forall j :: 0 <= j < n ==> ns[j] == U16(d, at + 2 * j) && ns[j] < 0x1_0000
  {
    seq(n, j requires 0 <= j < n => U16(d, at + 2 * j))
  }

  function Chars(d: seq<Byte>): (s: string)
    ensures |s| == |d| && forall i :: 0 <= i < |d| ==> s[i] == d[i] as char
  {
    seq(|d|, i requires 0 <= i < |d| => d[i] as char)
  }

  function Bytes(s: string): (d: seq<Byte>)
    requires forall i :: 0 <= i < |s| ==> s[i] as int < 256
    ensures |d| == |s| && Chars(d) == s
  {
    seq(|s|, i requires 0 <= i < |s| => s[i] as int as Byte)
  }

  // -------------------------------------------------------------------- reading

  // A constant and the offset behind it.
  function ReadConstant(d: seq<Byte>, at: nat): (r: Res<(Constant, nat)>)
    ensures r.Ok? ==> at < r.value.1 <= |d| && Storable(r.value.0)
  {
    if at >= |d| then Err(TRUNCATED)
    else if d[at] == TAG_INTEGER then
      if at + 5 > |d| then Err(TRUNCATED) else Ok((KInteger(Signed(U32(d, at + 1))), at + 5))
    else if d[at] == TAG_BOOLEAN then
      if at + 2 > |d| then Err(TRUNCATED) else Ok((KBoolean(d[at + 1] != 0), at + 2))
    else if d[at] == TAG_NULL then Ok((KNull, at + 1))
    else if d[at] == TAG_STRING then ReadString(d, at + 1)
    else if d[at] == TAG_FUNCTION then ReadFunction(d, at + 1)
    else if d[at] == TAG_CLASS then ReadClass(d, at + 1)
    else Err(BAD_TAG)
  }

  function ReadString(d: seq<Byte>, at: nat): (r: Res<(Constant, nat)>)
    ensures r.Ok? ==> at <= r.value.1 <= |d| && r.value.0.KString? && Storable(r.value.0)
  {
    if at + 4 > |d| then Err(TRUNCATED)
    else
      var n := U32(d, at);
      if at + 4 + n > |d| then Err(TRUNCATED)
      else Ok((KString(Chars(d[at + 4..at + 4 + n])), at + 4 + n))
  }

  function ReadFunction(d: seq<Byte>, at: nat): (r: Res<(Constant, nat)>)
    ensures r.Ok? ==> at <= r.value.1 <= |d| && r.value.0.KFunction? && Storable(r.value.0)
  {
    if at + 7 > |d| then Err(TRUNCATED)
    else
      var n := U32(d, at + 3);
      if at + 7 + n > |d| then Err(TRUNCATED)
      else Ok((KFunction(d[at] as nat, U16(d, at + 1), d[at + 7..at + 7 + n]), at + 7 + n))
  }

  function ReadClass(d: seq<Byte>, at: nat): (r: Res<(Constant, nat)>)
    ensures r.Ok? ==> at <= r.value.1 <= |d| && r.value.0.KClass? && Storable(r.value.0)
  {
    var members :- ReadU16s(d, at);
    Ok((KClass(members), at + 2 + 2 * |members|))
  }

  // A count and as many 16-bit numbers.
  function ReadU16s(d: seq<Byte>, at: nat): (r: Res<seq<nat>>)
    ensures r.Ok? ==> at + 2 + 2 * |r.value| <= |d| && Shorts(r.value)
  {
    if at + 2 > |d| then Err(TRUNCATED)
    else
      var n := U16(d, at);
      if at + 2 + 2 * n > |d| then Err(TRUNCATED) else Ok(GetU16s(d, at + 2, n))
  }

  // Numbers a count and 16 bits each can represent.
  predicate Shorts(ns: seq<nat>) { |ns| < 0x1_0000 && forall j :: 0 <= j < |ns| ==> ns[j] < 0x1_0000 }

  // Constants the format can represent.
  predicate Storable(c: Constant) {
    match c
    case KInteger(i) => -0x8000_0000 <= i < 0x8000_0000
    case KNull => true
    case KBoolean(_) => true
    case KString(s) => |s| < 0x1_0000_0000 && forall i :: 0 <= i < |s| ==> s[i] as int < 256
    case KFunction(params, locals, code) => params < 0x100 && locals < 0x1_0000 && |code| < 0x1_0000_0000
    case KClass(members) => Shorts(members)
  }

  // ------------------------------------------------------------------- the pool

  // Room a constant takes, by the structure it is kept in.
  function Size(c: Constant): (n: nat)
    ensures n > 0
  {
    match c
    case KInteger(_) => 8
    case KNull => 1
    case KBoolean(_) => 2
    case KString(s) => 8 + |s|
    case KFunction(_, _, code) => 8 + |code|
    case KClass(members) => 4 + 2 * |members|
  }

  // What is written of it: strings get a terminator behind their bytes.
  function Written(c: Constant): nat { if c.KString? then Size(c) + 1 else Size(c) }

  function Align8(at: nat): (r: nat)
    ensures at <= r < at + 8 && r % 8 == 0
  {
    var diff := 8 - at % 8;
    if diff != 8 then at + diff else at
  }

  // Where the constant after `c` goes.
  function NextSlot(at: nat, c: Constant): (r: nat)
    ensures at < r && r % 8 == 0
  {
    Align8(at + Size(c))
  }

  // `n` constants from a file offset on, the first one placed at `slot`.
  function ReadConstants(d: seq<Byte>, at: nat, n: nat, slot: nat): (r: Res<(seq<Constant>, nat)>)
    ensures r.Ok? ==> |r.value.0| == n && at <= r.value.1
    ensures r.Ok? ==> forall i :: 0 <= i < n ==> Storable(r.value.0[i])
    ensures r.Ok? ==> FitsPool(r.value.0, slot)
    decreases n
  {
    if n == 0 then Ok(([], at))
    else
      var (c, at1) :- ReadConstant(d, at);
      if slot + Written(c) > CONST_POOL_SZ then Err(POOL_FULL)
      else
        var (cs, at2) :- ReadConstants(d, at1, n - 1, NextSlot(slot, c));
        Ok(([c] + cs, at2))
  }

  predicate FitsPool(cs: seq<Constant>, slot: nat) {
    cs == [] || (slot + Written(cs[0]) <= CONST_POOL_SZ && FitsPool(cs[1..], NextSlot(slot, cs[0])))
  }

  // The slot of each constant, and the one behind the last.
  function SlotOf(cs: seq<Constant>, i: nat): (at: nat)
    requires i <= |cs|
    ensures at % 8 == 0
  {
    if i == 0 then 0 else NextSlot(SlotOf(cs, i - 1), cs[i - 1])
  }

  const HEADER: seq<Byte> := [0x46, 0x4D, 0x4C, 0x0A]

  function ReadProgram(d: seq<Byte>): (r: Res<Program>)
    ensures r.Ok? ==> Loadable(r.value)
  {
    if |d| < 4 then Err(TRUNCATED)
    else if d[..4] != HEADER then Err(BAD_HEADER)
    else if |d| < 6 then Err(TRUNCATED)
    else
      var (cs, at) :- ReadConstants(d, 6, U16(d, 4), 0);
      var globals :- ReadU16s(d, at);
      var at2 := at + 2 + 2 * |globals|;
      if at2 + 2 > |d| then Err(TRUNCATED)
      else if U16(d, at2) >= |cs| then Err(BAD_ENTRY)
      else Ok(Program(cs, globals, U16(d, at2)))
  }

  predicate Loadable(p: Program) {
    && |p.constants| < 0x1_0000 && (forall i :: 0 <= i < |p.constants| ==> Storable(p.constants[i]))
    && Shorts(p.globals) && p.entry < |p.constants| && FitsPool(p.constants, 0)
  }

  // -------------------------------------------------------------------- writing

  function Encode(c: Constant): (d: seq<Byte>)
    requires Storable(c)
    ensures |d| > 0
  {
    match c
    case KInteger(i) => [TAG_INTEGER] + PutU32(Unsigned(i))
    case KNull => [TAG_NULL]
    case KBoolean(b) => [TAG_BOOLEAN, if b then 1 else 0]
    case KString(s) => [TAG_STRING] + PutU32(|s|) + Bytes(s)
    case KFunction(_, _, _) => [TAG_FUNCTION] + FunctionBytes(c)
    case KClass(members) => [TAG_CLASS] + PutU16(|members|) + PutU16s(members)
  }

  function FunctionBytes(f: Constant): seq<Byte>
    requires f.KFunction? && Storable(f)
  {
    [f.params as Byte] + PutU16(f.locals) + PutU32(|f.code|) + f.code
  }

  function EncodeAll(cs: seq<Constant>): seq<Byte>
    requires forall i :: 0 <= i < |cs| ==> Storable(cs[i])
  {
    if cs == [] then [] else Encode(cs[0]) + EncodeAll(cs[1..])
  }

  function Serialize(p: Program): seq<Byte>
    requires Loadable(p)
  {
    HEADER + PutU16(|p.constants|) + EncodeAll(p.constants)
    + PutU16(|p.globals|) + PutU16s(p.globals) + PutU16(p.entry)
  }

  // ----------------------------------------------------------------- round trips

  lemma U16Put(pre: seq<Byte>, n: nat, post: seq<Byte>)
    requires n < 0x1_0000
    ensures U16(pre + PutU16(n) + post, |pre|) == n
  {
    var d := pre + PutU16(n) + post;
    assert d[|pre|] == Byte0(n) && d[|pre| + 1] == Byte0(n / 0x100);
  }

  lemma U32Put(pre: seq<Byte>, n: nat, post: seq<Byte>)
    requires n < 0x1_0000_0000
    ensures U32(pre + PutU32(n) + post, |pre|) == n
  {
    var d := pre + PutU32(n) + post;
    assert d[|pre|] == Byte0(n) && d[|pre| + 1] == Byte0(n / 0x100);
    assert d[|pre| + 2] == Byte0(n / 0x1_0000) && d[|pre| + 3] == Byte0(n / 0x100_0000);
    Digits(n);
  }

  lemma Digits(n: nat)
    requires n < 0x1_0000_0000
    ensures n == n % 0x100 + 0x100 * (n / 0x100 % 0x100) + 0x1_0000 * (n / 0x1_0000 % 0x100)
                 + 0x100_0000 * (n / 0x100_0000 % 0x100)
  {
    assert n / 0x1_0000 == n / 0x100 / 0x100;
    assert n / 0x100_0000 == n / 0x1_0000 / 0x100;
  }

  lemma {:induction false} U16sPut(pre: seq<Byte>, ns: seq<nat>, post: seq<Byte>)
    requires forall j :: 0 <= j < |ns| ==> ns[j] < 0x1_0000
    ensures GetU16s(pre + PutU16s(ns) + post, |pre|, |ns|) == ns
    decreases |ns|
  {
    hide U16, PutU16, GetU16s;
    if ns != [] {
      var d := pre + PutU16s(ns) + post;
      assert d == pre + PutU16(ns[0]) + (PutU16s(ns[1..]) + post);
      U16Put(pre, ns[0], PutU16s(ns[1..]) + post);
      assert d == (pre + PutU16(ns[0])) + PutU16s(ns[1..]) + post;
      U16sPut(pre + PutU16(ns[0]), ns[1..], post);
      PutLength(ns[0]);
      GetFirst(d, |pre|, |ns|);
      assert [ns[0]] + ns[1..] == ns;
    }
  }

  lemma GetFirst(d: seq<Byte>, at: nat, n: nat)
    requires 0 < n && at + 2 * n <= |d|
    ensures GetU16s(d, at, n) == [U16(d, at)] + GetU16s(d, at + 2, n - 1)
  {
  }

  lemma CountedPut(pre: seq<Byte>, ns: seq<nat>, post: seq<Byte>)
    requires Shorts(ns)
    ensures ReadU16s(pre + PutU16(|ns|) + PutU16s(ns) + post, |pre|) == Ok(ns)
  {
    var d := pre + PutU16(|ns|) + PutU16s(ns) + post;
    assert d == pre + PutU16(|ns|) + (PutU16s(ns) + post);
    U16Put(pre, |ns|, PutU16s(ns) + post);
    assert d == (pre + PutU16(|ns|)) + PutU16s(ns) + post;
    U16sPut(pre + PutU16(|ns|), ns, post);
  }

  lemma ConstantRoundTrip(pre: seq<Byte>, c: Constant, post: seq<Byte>)
    requires Storable(c)
    ensures ReadConstant(pre + Encode(c) + post, |pre|) == Ok((c, |pre| + |Encode(c)|))
  {
    hide ReadConstant, Encode;
    match c
    case KInteger(i) => IntegerRoundTrip(pre, i, post);
    case KNull => PlainRoundTrip(pre, c, post);
    case KBoolean(b) => PlainRoundTrip(pre, c, post);
    case KString(s) => StringRoundTrip(pre, s, post);
    case KFunction(params, locals, code) => FunctionRoundTrip(pre, c, post);
    case KClass(members) => ClassRoundTrip(pre, members, post);
  }

  // The tag of a constant decides how the rest is read.
  lemma Tagged(pre: seq<Byte>, c: Constant, rest: seq<Byte>, post: seq<Byte>)
    requires Storable(c) && |Encode(c)| == 1 + |rest| && Encode(c) == [Encode(c)[0]] + rest
    ensures var d := pre + Encode(c) + post;
            d[|pre|] == Encode(c)[0] && d == pre + [Encode(c)[0]] + rest + post
  {
  }

  lemma PlainRoundTrip(pre: seq<Byte>, c: Constant, post: seq<Byte>)
    requires c.KNull? || c.KBoolean?
    ensures ReadConstant(pre + Encode(c) + post, |pre|) == Ok((c, |pre| + |Encode(c)|))
  {
    var d := pre + Encode(c) + post;
    assert d[|pre|] == Encode(c)[0];
    if c.KBoolean? { assert d[|pre| + 1] == Encode(c)[1]; }
  }

  lemma IntegerRoundTrip(pre: seq<Byte>, i: int, post: seq<Byte>)
    requires Storable(KInteger(i))
    ensures ReadConstant(pre + Encode(KInteger(i)) + post, |pre|) == Ok((KInteger(i), |pre| + |Encode(KInteger(i))|))
  {
    hide U32, Signed, Unsigned;
    Tagged(pre, KInteger(i), PutU32(Unsigned(i)), post);
    U32Put(pre + [TAG_INTEGER], Unsigned(i), post);
  }

  lemma StringRoundTrip(pre: seq<Byte>, s: string, post: seq<Byte>)
    requires Storable(KString(s))
    ensures ReadConstant(pre + Encode(KString(s)) + post, |pre|) == Ok((KString(s), |pre| + |Encode(KString(s))|))
  {
    hide U32, PutU32, Bytes, Chars;
    var rest := PutU32(|s|) + Bytes(s);
    PutLength32(|s|);
    Tagged(pre, KString(s), rest, post);
    var front := pre + [TAG_STRING];
    var d := front + rest + post;
    assert d == front + PutU32(|s|) + (Bytes(s) + post);
    U32Put(front, |s|, Bytes(s) + post);
    assert d[|front| + 4..|front| + 4 + |s|] == Bytes(s);
  }

  lemma FunctionRoundTrip(pre: seq<Byte>, f: Constant, post: seq<Byte>)
    requires f.KFunction? && Storable(f)
    ensures ReadConstant(pre + Encode(f) + post, |pre|) == Ok((f, |pre| + |Encode(f)|))
  {
    hide FunctionBytes, ReadFunction;
    Tagged(pre, f, FunctionBytes(f), post);
    FunctionRead(pre + [TAG_FUNCTION], f, post);
  }

  lemma FunctionRead(front: seq<Byte>, f: Constant, post: seq<Byte>)
    requires f.KFunction? && Storable(f)
    ensures ReadFunction(front + FunctionBytes(f) + post, |front|) == Ok((f, |front| + |FunctionBytes(f)|))
  {
    hide U32, U16, PutU16, PutU32;
    var KFunction(params, locals, code) := f;
    PutLength(locals);
    PutLength32(|code|);
    var upTo, end := front + [params as Byte] + PutU16(locals) + PutU32(|code|), code + post;
    var d := upTo + code + post;
    assert d[|upTo|..|upTo| + |code|] == code && d[|front|] == params as Byte;
    FunctionNumbers(front, params as Byte, locals, |code|, end);
    assert d == upTo + end == front + FunctionBytes(f) + post;
  }

  // The numbers in front of the bytes of a function.
  lemma FunctionNumbers(front: seq<Byte>, params: Byte, locals: nat, n: nat, end: seq<Byte>)
    requires locals < 0x1_0000 && n < 0x1_0000_0000
    ensures var d := front + [params] + PutU16(locals) + PutU32(n) + end;
            |d| >= |front| + 7 && U16(d, |front| + 1) == locals && U32(d, |front| + 3) == n
  {
    hide U32, U16, PutU16, PutU32;
    PutLength(locals);
    PutLength32(n);
    var d := front + [params] + PutU16(locals) + PutU32(n) + end;
    assert d == (front + [params]) + PutU16(locals) + (PutU32(n) + end);
    U16Put(front + [params], locals, PutU32(n) + end);
    U32Put(front + [params] + PutU16(locals), n, end);
  }

  lemma ClassRoundTrip(pre: seq<Byte>, members: seq<nat>, post: seq<Byte>)
    requires Shorts(members)
    ensures ReadConstant(pre + Encode(KClass(members)) + post, |pre|)
         == Ok((KClass(members), |pre| + |Encode(KClass(members))|))
  {
    hide ReadU16s, PutU16, PutU16s;
    var rest := PutU16(|members|) + PutU16s(members);
    PutLength(|members|);
    Tagged(pre, KClass(members), rest, post);
    var front := pre + [TAG_CLASS];
    assert front + rest + post == front + PutU16(|members|) + PutU16s(members) + post;
    CountedPut(front, members, post);
  }

  lemma {:induction false} ConstantsRoundTrip(pre: seq<Byte>, cs: seq<Constant>, post: seq<Byte>, slot: nat)
    requires (forall i :: 0 <= i < |cs| ==> Storable(cs[i])) && FitsPool(cs, slot)
    ensures ReadConstants(pre + EncodeAll(cs) + post, |pre|, |cs|, slot) == Ok((cs, |pre| + |EncodeAll(cs)|))
    decreases |cs|
  {
    hide ReadConstant, Encode, NextSlot, Written, Storable;
    if cs == [] {
    } else {
      var one, more := Encode(cs[0]), EncodeAll(cs[1..]);
      Regroup(pre, one, more, post);
      ConstantRoundTrip(pre, cs[0], more + post);
      ConstantsRoundTrip(pre + one, cs[1..], post, NextSlot(slot, cs[0]));
      assert [cs[0]] + cs[1..] == cs;
    }
  }

  lemma Regroup(a: seq<Byte>, b: seq<Byte>, c: seq<Byte>, d: seq<Byte>)
    ensures a + (b + c) + d == a + b + (c + d) == (a + b) + c + d
  {
    assert a + (b + c) + d == a + b + (c + d);
    assert a + b + (c + d) == (a + b) + c + d;
  }

  // Reading what was written gives the program back, whatever follows it in the file.
  lemma ProgramRoundTrip(p: Program, post: seq<Byte>)
    requires Loadable(p)
    ensures ReadProgram(Serialize(p) + post) == Ok(p)
  {
    hide ReadConstants, EncodeAll, U16, ReadU16s, PutU16;
    var d := Serialize(p) + post;
    var cs, gs := p.constants, p.globals;
    var tail := PutU16(|gs|) + PutU16s(gs) + PutU16(p.entry) + post;
    assert d == HEADER + PutU16(|cs|) + (EncodeAll(cs) + tail);
    assert |HEADER| == 4 && d[..4] == HEADER;
    U16Put(HEADER, |cs|, EncodeAll(cs) + tail);
    PutLength(|cs|);
    PutLength(|gs|);
    PutLength(p.entry);
    var pre := HEADER + PutU16(|cs|);
    assert d == pre + EncodeAll(cs) + tail;
    ConstantsRoundTrip(pre, cs, tail, 0);
    var pre2 := pre + EncodeAll(cs);
    assert d == pre2 + PutU16(|gs|) + PutU16s(gs) + (PutU16(p.entry) + post);
    CountedPut(pre2, gs, PutU16(p.entry) + post);
    var pre3 := pre2 + PutU16(|gs|) + PutU16s(gs);
    assert d == pre3 + PutU16(p.entry) + post;
    U16Put(pre3, p.entry, post);
  }

  lemma PutLength32(n: nat)
    ensures |PutU32(n)| == 4
  {
  }

  // Any file that loads is as good as the canonical file of its program.
  lemma ReadingIsStable(d: seq<Byte>)
    requires ReadProgram(d).Ok?
    ensures ReadProgram(Serialize(ReadProgram(d).value)) == ReadProgram(d)
  {
    hide ReadProgram, Serialize, Loadable;
    var p := ReadProgram(d).value;
    ProgramRoundTrip(p, []);
    assert Serialize(p) + [] == Serialize(p);
  }

  // ------------------------------------------------------------- slots in the pool

  // Slots grow, each beginning behind the bytes of the constant before it.
  lemma {:induction false} SlotsGrow(cs: seq<Constant>, i: nat, j: nat)
    requires i < j <= |cs|
    ensures SlotOf(cs, i) + Size(cs[i]) <= SlotOf(cs, j)
  {
    if i < j - 1 { SlotsGrow(cs, i, j - 1); }
  }

  // A slot depends on the constants before it only.
  lemma {:induction false} SlotOfPrefix(cs: seq<Constant>, c: Constant, i: nat)
    requires i <= |cs|
    ensures SlotOf(cs + [c], i) == SlotOf(cs, i)
  {
    if i > 0 { SlotOfPrefix(cs, c, i - 1); }
  }

  // The bytes of a constant lie in the pool.
  lemma {:induction false} SlotsFit(cs: seq<Constant>, i: nat)
    requires i < |cs| && FitsPool(cs, 0)
    ensures FitsPool(cs[i..], SlotOf(cs, i)) && SlotOf(cs, i) + Written(cs[i]) <= CONST_POOL_SZ
  {
    if i > 0 {
      SlotsFit(cs, i - 1);
      assert cs[i - 1..][1..] == cs[i..];
    } else {
      assert cs[0..] == cs;
    }
  }

  // A constant as the machine finds it in memory. Padding is left open.
  predicate Holds(pool: seq<Byte>, at: nat, c: Constant) {
    at + Size(c) <= |pool| &&
    match c
    case KInteger(i) => pool[at] == TAG_INTEGER && Signed(U32(pool, at + 4)) == i
    case KNull => pool[at] == TAG_NULL
    case KBoolean(b) => pool[at] == TAG_BOOLEAN && (pool[at + 1] != 0) == b
    case KString(s) => pool[at] == TAG_STRING && U32(pool, at + 4) == |s| && Chars(pool[at + 8..at + 8 + |s|]) == s
    case KFunction(params, locals, code) =>
      && pool[at] == TAG_FUNCTION && pool[at + 1] as nat == params && U16(pool, at + 2) == locals
      && U32(pool, at + 4) == |code| && pool[at + 8..at + 8 + |code|] == code
    case KClass(members) =>
      pool[at] == TAG_CLASS && U16(pool, at + 2) == |members| && GetU16s(pool, at + 4, |members|) == members
  }

  lemma HoldsInside(pool: seq<Byte>, at: nat, c: Constant)
    requires Holds(pool, at, c)
    ensures at + Size(c) <= |pool|
  {
  }

  // Only the bytes of the constant matter.
  lemma HoldsStill(pool: seq<Byte>, after: seq<Byte>, at: nat, c: Constant)
    requires Holds(pool, at, c) && |after| == |pool|
    requires forall k :: at <= k < at + Size(c) ==> after[k] == pool[k]
    ensures Holds(after, at, c)
  {
    match c
    case KString(s) => assert after[at + 8..at + 8 + |s|] == pool[at + 8..at + 8 + |s|];
    case KFunction(_, _, code) => assert after[at + 8..at + 8 + |code|] == pool[at + 8..at + 8 + |code|];
    case KClass(members) =>
      forall j | 0 <= j < |members| ensures GetU16s(after, at + 4, |members|)[j] == members[j] {
        assert members[j] == GetU16s(pool, at + 4, |members|)[j] == U16(pool, at + 4 + 2 * j);
      }
    case _ =>
  }

  // Bytes of the file that lie in the pool.
  predicate Copied(pool: seq<Byte>, slot: nat, d: seq<Byte>, at: nat, n: nat) {
    slot + n <= |pool| && at + n <= |d| && pool[slot..slot + n] == d[at..at + n]
  }

  lemma CopiedAt(pool: seq<Byte>, slot: nat, d: seq<Byte>, at: nat, n: nat, k: nat)
    requires Copied(pool, slot, d, at, n) && k < n
    ensures pool[slot + k] == d[at + k]
  {
    assert pool[slot..slot + n][k] == d[at..at + n][k];
  }

  lemma StringHolds(pool: seq<Byte>, slot: nat, d: seq<Byte>, at: nat)
    requires ReadString(d, at).Ok? && slot < |pool| && pool[slot] == TAG_STRING
    requires Copied(pool, slot + 4, d, at, 4) && Copied(pool, slot + 8, d, at + 4, U32(d, at))
    ensures Holds(pool, slot, ReadString(d, at).value.0)
  {
    SameU32(pool, slot + 4, d, at, 0);
    var n := U32(d, at);
    assert pool[slot + 8..slot + 8 + n] == d[at + 4..at + 4 + n];
  }

  lemma FunctionHolds(pool: seq<Byte>, slot: nat, d: seq<Byte>, at: nat)
    requires ReadFunction(d, at).Ok? && slot < |pool| && pool[slot] == TAG_FUNCTION
    requires Copied(pool, slot + 1, d, at, 7) && Copied(pool, slot + 8, d, at + 7, U32(d, at + 3))
    ensures Holds(pool, slot, ReadFunction(d, at).value.0)
  {
    SameU32(pool, slot + 1, d, at, 3);
    CopiedAt(pool, slot + 1, d, at, 7, 0);
    CopiedAt(pool, slot + 1, d, at, 7, 1);
    CopiedAt(pool, slot + 1, d, at, 7, 2);
    var n := U32(d, at + 3);
    assert pool[slot + 8..slot + 8 + n] == d[at + 7..at + 7 + n];
  }

  lemma SameU32(pool: seq<Byte>, slot: nat, d: seq<Byte>, at: nat, k: nat)
    requires Copied(pool, slot, d, at, k + 4)
    ensures U32(pool, slot + k) == U32(d, at + k)
  {
    CopiedAt(pool, slot, d, at, k + 4, k);
    CopiedAt(pool, slot, d, at, k + 4, k + 1);
    CopiedAt(pool, slot, d, at, k + 4, k + 2);
    CopiedAt(pool, slot, d, at, k + 4, k + 3);
  }

  lemma ClassHolds(pool: seq<Byte>, slot: nat, d: seq<Byte>, at: nat)
    requires ReadClass(d, at).Ok? && slot < |pool| && pool[slot] == TAG_CLASS
    requires Copied(pool, slot + 2, d, at, 2 + 2 * |ReadClass(d, at).value.0.members|)
    ensures Holds(pool, slot, ReadClass(d, at).value.0)
  {
    var members := ReadClass(d, at).value.0.members;
    SameU16(pool, slot + 2, d, at, 0, 2 + 2 * |members|);
    forall j | 0 <= j < |members| ensures U16(pool, slot + 4 + 2 * j) == members[j] {
      SameU16(pool, slot + 2, d, at, 2 + 2 * j, 2 + 2 * |members|);
    }
    assert GetU16s(pool, slot + 4, |members|) == members;
  }

  lemma SameU16(pool: seq<Byte>, slot: nat, d: seq<Byte>, at: nat, k: nat, n: nat)
    requires Copied(pool, slot, d, at, n) && k + 2 <= n
    ensures U16(pool, slot + k) == U16(d, at + k)
  {
    CopiedAt(pool, slot, d, at, n, k);
    CopiedAt(pool, slot, d, at, n, k + 1);
  }

  // Every constant is where its slot is.
  predicate PoolHolds(pool: seq<Byte>, map_: seq<nat>, cs: seq<Constant>) {
    && |map_| > |cs|
    && (forall i :: 0 <= i <= |cs| ==> map_[i] == SlotOf(cs, i))
    && (forall i :: 0 <= i < |cs| ==> Holds(pool, SlotOf(cs, i), cs[i]))
  }

  lemma SlotAfter(cs: seq<Constant>, c: Constant)
    ensures SlotOf(cs + [c], |cs| + 1) == NextSlot(SlotOf(cs, |cs|), c)
  {
    SlotOfPrefix(cs, c, |cs|);
  }

  // Placing one more constant leaves the earlier ones as they are, terminators included.
  lemma PoolGrows(pool: seq<Byte>, after: seq<Byte>, map_: seq<nat>, cs: seq<Constant>, c: Constant)
    requires PoolHolds(pool, map_, cs) && |map_| > |cs| + 1 && |after| == |pool|
    requires forall k :: 0 <= k < SlotOf(cs, |cs|) && k < |pool| ==> after[k] == pool[k]
    requires Holds(after, SlotOf(cs, |cs|), c)
    ensures PoolHolds(after, map_[|cs| + 1 := NextSlot(SlotOf(cs, |cs|), c)], cs + [c])
  {
    hide Holds, NextSlot, Size, SlotOf;
    var ds := cs + [c];
    SlotAfter(cs, c);
    var m := map_[|cs| + 1 := NextSlot(SlotOf(cs, |cs|), c)];
    forall i | 0 <= i <= |ds| ensures m[i] == SlotOf(ds, i) {
      SlotOfPrefix(cs, c, if i <= |cs| then i else |cs|);
    }
    forall i | 0 <= i < |ds| ensures Holds(after, SlotOf(ds, i), ds[i]) {
      SlotOfPrefix(cs, c, i);
      if i < |cs| {
        SlotsGrow(cs, i, |cs|);
        HoldsInside(pool, SlotOf(cs, i), cs[i]);
        HoldsStill(pool, after, SlotOf(cs, i), cs[i]);
      }
    }
  }

  // Memory determines the constant: no slot holds two.
  lemma HoldsOne(pool: seq<Byte>, at: nat, c: Constant, e: Constant)
    requires Holds(pool, at, c) && Holds(pool, at, e)
    ensures c == e
  {
  }

  // ---------------------------------------------------------------- a whole file

  const EXAMPLE: Program :=
    Program([KInteger(-2), KNull, KString("hi"), KFunction(1, 258, [0x0F]), KBoolean(true), KClass([2])], [2], 3)

  // The constants, then the whole file: header, number of constants, constants, number of
  // globals, globals, entry point.
  const EXAMPLE_POOL: seq<Byte> :=
    [0x00, 0xFE, 0xFF, 0xFF, 0xFF] + [0x01] + [0x02, 2, 0, 0, 0, 0x68, 0x69]
    + ([0x03, 1, 2, 1, 1, 0, 0, 0, 0x0F] + [0x04, 1] + [0x05, 1, 0, 2, 0])

  const EXAMPLE_FILE: seq<Byte> := [0x46, 0x4D, 0x4C, 0x0A] + [6, 0] + EXAMPLE_POOL + [1, 0] + [2, 0] + [3, 0]

  // A file with a constant of each kind, byte by byte.
  lemma ExampleLoads()
    ensures ReadProgram(EXAMPLE_FILE) == Ok(EXAMPLE)
  {
    hide ReadProgram, Encode, EncodeAll, PutU16, PutU16s, Loadable;
    ExampleFits();
    ExampleConstants();
    ExampleNumbers();
    assert Serialize(EXAMPLE) + [] == EXAMPLE_FILE;
    ProgramRoundTrip(EXAMPLE, []);
  }

  lemma ExampleNumbers()
    ensures PutU16(6) == [6, 0] && PutU16(1) == [1, 0] && PutU16s([2]) == [2, 0] && PutU16(3) == [3, 0]
  {
    assert PutU16s([2]) == PutU16(2) + PutU16s([]);
  }

  lemma EncodesThree(a: Constant, b: Constant, c: Constant, cs: seq<Constant>)
    requires Storable(a) && Storable(b) && Storable(c) && forall i :: 0 <= i < |cs| ==> Storable(cs[i])
    ensures EncodeAll([a, b, c] + cs) == Encode(a) + Encode(b) + Encode(c) + EncodeAll(cs)
  {
    hide Encode, EncodeAll, Storable;
    EncodesOne(c, cs);
    EncodesOne(b, [c] + cs);
    EncodesOne(a, [b] + ([c] + cs));
    assert [a, b, c] + cs == [a] + ([b] + ([c] + cs));
    Flatten(Encode(a), Encode(b), Encode(c), EncodeAll(cs));
  }

  lemma EncodesOne(c: Constant, cs: seq<Constant>)
    requires Storable(c) && forall i :: 0 <= i < |cs| ==> Storable(cs[i])
    ensures EncodeAll([c] + cs) == Encode(c) + EncodeAll(cs)
  {
    hide Encode;
    assert ([c] + cs)[1..] == cs;
  }

  lemma Flatten(a: seq<Byte>, b: seq<Byte>, c: seq<Byte>, d: seq<Byte>)
    ensures a + (b + (c + d)) == a + b + c + d
  {
  }

  lemma ExampleConstants()
    requires Loadable(EXAMPLE)
    ensures EncodeAll(EXAMPLE.constants) == EXAMPLE_POOL
  {
    hide Encode, EncodeAll, Loadable;
    ExampleBytes();
    var cs := EXAMPLE.constants;
    EncodesThree(cs[3], cs[4], cs[5], []);
    EncodesThree(cs[0], cs[1], cs[2], [cs[3], cs[4], cs[5]]);
    EncodesNone();
    assert [cs[3], cs[4], cs[5]] + [] == [cs[3], cs[4], cs[5]];
    assert [cs[0], cs[1], cs[2]] + [cs[3], cs[4], cs[5]] == cs;
    var late := Encode(cs[3]) + Encode(cs[4]) + Encode(cs[5]);
    assert late + [] == late;
  }

  lemma EncodesNone()
    ensures EncodeAll([]) == []
  {
  }

  lemma ExampleFits()
    ensures Loadable(EXAMPLE)
  {
  }

  lemma ExampleBytes()
    ensures var cs := EXAMPLE.constants;
            && Encode(cs[0]) == [0x00, 0xFE, 0xFF, 0xFF, 0xFF] && Encode(cs[1]) == [0x01]
            && Encode(cs[2]) == [0x02, 2, 0, 0, 0, 0x68, 0x69]
            && Encode(cs[3]) == [0x03, 1, 2, 1, 1, 0, 0, 0, 0x0F] && Encode(cs[4]) == [0x04, 1]
            && Encode(cs[5]) == [0x05, 1, 0, 2, 0]
  {
  }
}
