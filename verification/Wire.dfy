/** Messages between daemon and helper as bytes: the encodings of AuthMessages.h, and frames sent and
    received over a socket that takes and gives as much at a time as it likes. */
module Wire {

  type Byte = x: int | 0 <= x < 256
  type Unit = x: int | 0 <= x < 65536     // a UTF-16 code unit

  /** What was read, and the bytes behind it. */
  datatype Got<+T> = Short | Got(value: T, rest: seq<Byte>)

  // ---------- numbers ----------

  function Pow(base: nat, k: nat): (p: nat)
    ensures base > 0 ==> p > 0
  {
    if k == 0 then 1 else base * Pow(base, k - 1)
  }

  /** The last `k` bytes of a number, most significant first. */
  function Big(n: nat, k: nat): (b: seq<Byte>)
    ensures |b| == k
  {
    if k == 0 then [] else Big(n / 256, k - 1) + [n % 256]
  }

  function FromBig(b: seq<Byte>): nat {
    if b == [] then 0 else 256 * FromBig(b[..|b| - 1]) + b[|b| - 1]
  }

  lemma {:induction false} BigReadsBack(n: nat, k: nat)
    requires n < Pow(256, k)
    ensures FromBig(Big(n, k)) == n
  {
    if k > 0 {
      BigReadsBack(n / 256, k - 1);
      assert Big(n, k)[..k - 1] == Big(n / 256, k - 1);
    }
  }

  lemma {:induction false} DividedTwice(n: nat, k: nat)
    ensures n / 256 / Pow(256, k) == n / Pow(256, k + 1)
  {
    var p := Pow(256, k);
    assert Pow(256, k + 1) == 256 * p;
    var (q, r) := (n / 256, n % 256);
    var (q', r') := (q / p, q % p);
    assert n == 256 * (p * q' + r') + r == (256 * p) * q' + (256 * r' + r);
    assert 256 * r' + r < 256 * p;
    Quotient(n, 256 * p, q', 256 * r' + r);
  }

  lemma Quotient(n: nat, d: nat, q: nat, r: nat)
    requires n == d * q + r && r < d
    ensures n / d == q
  {
    var x := n / d;
    assert d * x <= n < d * x + d;
    Times(d, x + 1, q);
    Times(d, q + 1, x);
  }

  lemma Times(d: nat, a: nat, b: nat)
    ensures a <= b ==> d * a <= d * b
  {
    if a <= b { assert d * b == d * a + d * (b - a); }
  }

  /** The byte order: the first byte counts most. */
  lemma {:induction false} BigEndian(n: nat, k: nat, i: nat)
    requires i < k
    ensures Big(n, k)[i] == n / Pow(256, k - 1 - i) % 256
  {
    if i < k - 1 {
      BigEndian(n / 256, k - 1, i);
      DividedTwice(n, k - 2 - i);
    }
  }

  function Reversed<T>(s: seq<T>): (r: seq<T>)
    ensures |r| == |s|
  {
    if s == [] then [] else Reversed(s[1..]) + [s[0]]
  }

  lemma {:induction false} ReversedLast<T>(s: seq<T>, x: T)
    ensures Reversed(s + [x]) == [x] + Reversed(s)
  {
    if s == [] {
      assert s + [x] == [x];
    } else {
      assert (s + [x])[1..] == s[1..] + [x];
      ReversedLast(s[1..], x);
    }
  }

  lemma {:induction false} ReversedTwice<T>(s: seq<T>)
    ensures Reversed(Reversed(s)) == s
  {
    if s != [] {
      ReversedTwice(s[1..]);
      ReversedLast(Reversed(s[1..]), s[0]);
    }
  }

  const TWO_TO_31 := 0x8000_0000
  const TWO_TO_32 := 0x1_0000_0000
  const TWO_TO_63 := 0x8000_0000_0000_0000
  const TWO_TO_64 := 0x1_0000_0000_0000_0000

  predicate Int32(v: int) {
    -TWO_TO_31 <= v < TWO_TO_31
  }

  lemma Powers()
    ensures Pow(256, 4) == TWO_TO_32 && Pow(256, 8) == TWO_TO_64 && Pow(256, 2) == 65536
  {
    assert Pow(256, 1) == 256 && Pow(256, 2) == 65536 && Pow(256, 3) == 0x100_0000 && Pow(256, 4) == TWO_TO_32;
    assert Pow(256, 5) == 0x100_0000_0000 && Pow(256, 6) == 0x1_0000_0000_0000 && Pow(256, 7) == 0x100_0000_0000_0000;
  }

  function PutNat32(n: nat): seq<Byte> {
    Big(n, 4)
  }

  function GetNat32(s: seq<Byte>): Got<nat> {
    if |s| < 4 then Short else Got(FromBig(s[..4]), s[4..])
  }

  function PutInt32(v: int): seq<Byte>
    requires Int32(v)
  {
    PutNat32(if v < 0 then v + TWO_TO_32 else v)
  }

  function GetInt32(s: seq<Byte>): Got<int> {
    match GetNat32(s)
    case Short => Short
    case Got(n, rest) => Got(if n < TWO_TO_31 then n else n - TWO_TO_32, rest)
  }

  lemma Nat32ReadsBack(n: nat, rest: seq<Byte>)
    requires n < TWO_TO_32
    ensures GetNat32(PutNat32(n) + rest) == Got(n, rest)
  {
    Powers();
    BigReadsBack(n, 4);
    assert (Big(n, 4) + rest)[..4] == Big(n, 4) && (Big(n, 4) + rest)[4..] == rest;
  }

  lemma Int32ReadsBack(v: int, rest: seq<Byte>)
    requires Int32(v)
    ensures GetInt32(PutInt32(v) + rest) == Got(v, rest)
  {
    Nat32ReadsBack(if v < 0 then v + TWO_TO_32 else v, rest);
  }

  function PutBool(b: bool): seq<Byte> {
    [if b then 1 else 0]
  }

  function GetBool(s: seq<Byte>): Got<bool> {
    if s == [] then Short else Got(s[0] != 0, s[1..])
  }

  // ---------- byte arrays and strings ----------

  /** A null array or string is told apart from an empty one by its length field. */
  datatype Bytes = NoBytes | Bytes(data: seq<Byte>)
  datatype Text = NoText | Text(units: seq<Unit>)

  const NULL_LENGTH := 0xFFFF_FFFF

  predicate Fits(n: nat) {
    n < NULL_LENGTH
  }

  function PutBytes(b: Bytes): seq<Byte> {
    match b
    case NoBytes => PutNat32(NULL_LENGTH)
    case Bytes(data) => PutNat32(|data|) + data
  }

  function GetBytes(s: seq<Byte>): Got<Bytes> {
    match GetNat32(s)
    case Short => Short
    case Got(n, rest) =>
      if n == NULL_LENGTH then Got(NoBytes, rest)
      else if |rest| < n then Short
      else Got(Bytes(rest[..n]), rest[n..])
  }

  lemma BytesReadBack(b: Bytes, rest: seq<Byte>)
    requires b.Bytes? ==> Fits(|b.data|)
    ensures GetBytes(PutBytes(b) + rest) == Got(b, rest)
  {
    match b
    case NoBytes => Nat32ReadsBack(NULL_LENGTH, rest);
    case Bytes(data) =>
      assert PutBytes(b) + rest == PutNat32(|data|) + (data + rest);
      Nat32ReadsBack(|data|, data + rest);
  }

  function PutUnits(units: seq<Unit>): (b: seq<Byte>)
    ensures |b| == 2 * |units|
  {
    if units == [] then [] else Big(units[0], 2) + PutUnits(units[1..])
  }

  function GetUnits(b: seq<Byte>): seq<Unit>
    requires |b| % 2 == 0
  {
    if b == [] then [] else [FromBig(b[..2]) % 65536] + GetUnits(b[2..])
  }

  lemma {:induction false} UnitsReadBack(units: seq<Unit>)
    ensures GetUnits(PutUnits(units)) == units
  {
    if units != [] {
      assert FromBig(Big(units[0], 2)) == units[0] by { Powers(); BigReadsBack(units[0], 2); }
      hide Big, FromBig;
      assert PutUnits(units)[..2] == Big(units[0], 2) && PutUnits(units)[2..] == PutUnits(units[1..]);
      UnitsReadBack(units[1..]);
    }
  }

  function PutText(t: Text): seq<Byte> {
    match t
    case NoText => PutNat32(NULL_LENGTH)
    case Text(units) => PutNat32(2 * |units|) + PutUnits(units)
  }

  /** An odd length is corrupt. */
  function GetText(s: seq<Byte>): Got<Text> {
    match GetNat32(s)
    case Short => Short
    case Got(n, rest) =>
      if n == NULL_LENGTH then Got(NoText, rest)
      else if n % 2 == 1 || |rest| < n then Short
      else Got(Text(GetUnits(rest[..n])), rest[n..])
  }

  predicate TextFits(t: Text) {
    t.Text? ==> Fits(2 * |t.units|)
  }

  lemma TextReadsBack(t: Text, rest: seq<Byte>)
    requires TextFits(t)
    ensures GetText(PutText(t) + rest) == Got(t, rest)
  {
    match t
    case NoText => Nat32ReadsBack(NULL_LENGTH, rest);
    case Text(units) =>
      var b := PutUnits(units);
      assert PutText(t) + rest == PutNat32(2 * |units|) + (b + rest);
      Nat32ReadsBack(2 * |units|, b + rest);
      assert (b + rest)[..2 * |units|] == b && (b + rest)[2 * |units|..] == rest;
      UnitsReadBack(units);
  }

  lemma Regroup(a: seq<Byte>, b: seq<Byte>, c: seq<Byte>)
    ensures (a + b) + c == a + (b + c)
  {
  }

  // ---------- prompts ----------

  datatype Prompt = Prompt(kind: int, message: Text, hidden: bool, response: Bytes)

  predicate PromptFits(p: Prompt) {
    Int32(p.kind) && TextFits(p.message) && (p.response.Bytes? ==> Fits(|p.response.data|))
  }

  function PutPrompt(p: Prompt): seq<Byte>
    requires PromptFits(p)
  {
    PutInt32(p.kind) + (PutText(p.message) + (PutBool(p.hidden) + PutBytes(p.response)))
  }

  function GetPrompt(s: seq<Byte>): Got<Prompt> {
    match GetInt32(s) case Short => Short case Got(kind, s1) =>
    match GetText(s1) case Short => Short case Got(message, s2) =>
    match GetBool(s2) case Short => Short case Got(hidden, s3) =>
    match GetBytes(s3) case Short => Short case Got(response, s4) =>
      Got(Prompt(kind, message, hidden, response), s4)
  }

  lemma PromptReadsBack(p: Prompt, rest: seq<Byte>)
    requires PromptFits(p)
    ensures GetPrompt(PutPrompt(p) + rest) == Got(p, rest)
  {
    hide PutBytes, PutText, PutInt32, GetInt32, GetText, GetBytes;
    var s3 := PutBytes(p.response) + rest;
    var s2 := PutBool(p.hidden) + s3;
    var s1 := PutText(p.message) + s2;
    Regroup(PutBool(p.hidden), PutBytes(p.response), rest);
    Regroup(PutText(p.message), PutBool(p.hidden) + PutBytes(p.response), rest);
    Regroup(PutInt32(p.kind), PutText(p.message) + (PutBool(p.hidden) + PutBytes(p.response)), rest);
    Int32ReadsBack(p.kind, s1);
    TextReadsBack(p.message, s2);
    BytesReadBack(p.response, rest);
  }

  predicate PromptsFit(prompts: seq<Prompt>) {
    |prompts| < TWO_TO_31 && forall p <- prompts :: PromptFits(p)
  }

  function PutPrompts(prompts: seq<Prompt>): seq<Byte>
    requires forall p <- prompts :: PromptFits(p)
  {
    if prompts == [] then [] else PutPrompt(prompts[0]) + PutPrompts(prompts[1..])
  }

  function GetPrompts(s: seq<Byte>, n: nat): Got<seq<Prompt>>
    decreases n
  {
    if n == 0 then Got([], s) else
    match GetPrompt(s) case Short => Short case Got(p, s1) =>
    match GetPrompts(s1, n - 1) case Short => Short case Got(prompts, s2) => Got([p] + prompts, s2)
  }

  function PutRequest(prompts: seq<Prompt>): seq<Byte>
    requires PromptsFit(prompts)
  {
    PutInt32(|prompts|) + PutPrompts(prompts)
  }

  /** A negative length is corrupt: no prompt is read, and the counts differ. */
  function GetRequest(s: seq<Byte>): Got<seq<Prompt>> {
    match GetInt32(s) case Short => Short case Got(n, s1) =>
      if n < 0 then Short else GetPrompts(s1, n)
  }

  lemma OnePromptMore(p: Prompt, prompts: seq<Prompt>, s: seq<Byte>, rest: seq<Byte>)
    requires PromptFits(p) && GetPrompts(s, |prompts|) == Got(prompts, rest)
    ensures GetPrompts(PutPrompt(p) + s, |prompts| + 1) == Got([p] + prompts, rest)
  {
    PromptReadsBack(p, s);
    hide PutPrompt, GetPrompt, PromptFits;
  }

  lemma {:induction false} PromptsReadBack(prompts: seq<Prompt>, rest: seq<Byte>)
    requires forall p <- prompts :: PromptFits(p)
    ensures GetPrompts(PutPrompts(prompts) + rest, |prompts|) == Got(prompts, rest)
  {
    if prompts == [] {
      assert [] + rest == rest;
    } else {
      hide PutPrompt, GetPrompts, PromptFits;
      assert prompts[0] in prompts && forall p <- prompts[1..] :: p in prompts;
      assert [prompts[0]] + prompts[1..] == prompts;
      Regroup(PutPrompt(prompts[0]), PutPrompts(prompts[1..]), rest);
      PromptsReadBack(prompts[1..], rest);
      OnePromptMore(prompts[0], prompts[1..], PutPrompts(prompts[1..]) + rest, rest);
    }
  }

  lemma RequestReadsBack(prompts: seq<Prompt>, rest: seq<Byte>)
    requires PromptsFit(prompts)
    ensures GetRequest(PutRequest(prompts) + rest) == Got(prompts, rest)
  {
    Regroup(PutInt32(|prompts|), PutPrompts(prompts), rest);
    Int32ReadsBack(|prompts|, PutPrompts(prompts) + rest);
    PromptsReadBack(prompts, rest);
  }

  // ---------- environments ----------

  const EQUALS: Unit := 61

  function Find(units: seq<Unit>, c: Unit): (k: nat)
    ensures k <= |units| && c !in units[..k] && (k < |units| ==> units[k] == c)
  {
    if units == [] || units[0] == c then 0
    else
      var k := Find(units[1..], c);
      assert units[..k + 1] == [units[0]] + units[1..][..k];
      k + 1
  }

  datatype Variable = Variable(key: seq<Unit>, value: seq<Unit>)

  /** The line of a variable, and what is read from such a line: all up to the first `=` is the key. */
  function LineOf(v: Variable): seq<Unit> {
    v.key + [EQUALS] + v.value
  }

  function VariableOf(line: seq<Unit>): Variable {
    var k := Find(line, EQUALS);
    if k == |line| then Variable(line, line) else Variable(line[..k], line[k + 1..])
  }

  /** A variable survives exactly if its key has no `=`; its value may. */
  lemma VariableReadsBack(v: Variable)
    ensures VariableOf(LineOf(v)) == v <==> EQUALS !in v.key
  {
    var (line, j) := (LineOf(v), Find(v.key, EQUALS));
    assert v.key[..|v.key|] == v.key;
    if EQUALS in v.key {
      assert line[..j] == v.key[..j] && line[j] == EQUALS;
      FindIs(line, j);
    } else {
      assert line[..|v.key|] == v.key && line[|v.key| + 1..] == v.value;
      FindIs(line, |v.key|);
    }
  }

  lemma FindIs(line: seq<Unit>, k: nat)
    requires k < |line| && EQUALS !in line[..k] && line[k] == EQUALS
    ensures Find(line, EQUALS) == k
  {
    assert forall j | 0 <= j < k :: line[j] in line[..k];
    assert forall j | 0 <= j < Find(line, EQUALS) :: line[j] in line[..Find(line, EQUALS)];
  }

  predicate LinesFit(lines: seq<seq<Unit>>) {
    |lines| < TWO_TO_32 && forall line <- lines :: TextFits(Text(line))
  }

  function PutLines(lines: seq<seq<Unit>>): seq<Byte> {
    if lines == [] then [] else PutText(Text(lines[0])) + PutLines(lines[1..])
  }

  function GetLines(s: seq<Byte>, n: nat): Got<seq<seq<Unit>>>
    decreases n
  {
    if n == 0 then Got([], s) else
    match GetText(s) case Short => Short case Got(t, s1) =>
    match GetLines(s1, n - 1) case Short => Short case Got(lines, s2) =>
      Got([if t.Text? then t.units else []] + lines, s2)
  }

  lemma OneLineMore(line: seq<Unit>, lines: seq<seq<Unit>>, s: seq<Byte>, rest: seq<Byte>)
    requires TextFits(Text(line)) && GetLines(s, |lines|) == Got(lines, rest)
    ensures GetLines(PutText(Text(line)) + s, |lines| + 1) == Got([line] + lines, rest)
  {
    hide PutText, GetText;
    TextReadsBack(Text(line), s);
  }

  lemma {:induction false} LinesReadBack(lines: seq<seq<Unit>>, rest: seq<Byte>)
    requires forall line <- lines :: TextFits(Text(line))
    ensures GetLines(PutLines(lines) + rest, |lines|) == Got(lines, rest)
  {
    if lines == [] {
      assert [] + rest == rest;
    } else {
      hide PutText, GetLines, TextFits;
      assert lines[0] in lines && forall line <- lines[1..] :: line in lines;
      assert [lines[0]] + lines[1..] == lines;
      Regroup(PutText(Text(lines[0])), PutLines(lines[1..]), rest);
      LinesReadBack(lines[1..], rest);
      OneLineMore(lines[0], lines[1..], PutLines(lines[1..]) + rest, rest);
    }
  }

  function LinesOf(env: seq<Variable>): seq<seq<Unit>> {
    seq(|env|, i requires 0 <= i < |env| => LineOf(env[i]))
  }

  /** An environment is written in whatever order its hash table has. */
  function PutEnvironment(env: seq<Variable>): seq<Byte> {
    PutNat32(|env|) + PutLines(LinesOf(env))
  }

  function Inserted(lines: seq<seq<Unit>>): map<seq<Unit>, seq<Unit>> {
    if lines == [] then map[]
    else
      var v := VariableOf(lines[|lines| - 1]);
      Inserted(lines[..|lines| - 1])[v.key := v.value]
  }

  function GetEnvironment(s: seq<Byte>): Got<map<seq<Unit>, seq<Unit>>> {
    match GetNat32(s) case Short => Short case Got(n, s1) =>
    match GetLines(s1, n) case Short => Short case Got(lines, s2) => Got(Inserted(lines), s2)
  }

  predicate IsEnvironment(env: seq<Variable>) {
    && (forall i, j | 0 <= i < j < |env| :: env[i].key != env[j].key)
    && (forall v <- env :: EQUALS !in v.key)
  }

  function AsMap(env: seq<Variable>): map<seq<Unit>, seq<Unit>> {
    if env == [] then map[] else AsMap(env[..|env| - 1])[env[|env| - 1].key := env[|env| - 1].value]
  }

  /** The order of the variables does not matter. */
  lemma {:induction false} MapHas(env: seq<Variable>, i: nat)
    requires IsEnvironment(env) && i < |env|
    ensures env[i].key in AsMap(env) && AsMap(env)[env[i].key] == env[i].value
  {
    if i < |env| - 1 {
      var init := env[..|env| - 1];
      assert forall v <- init :: v in env;
      assert init[i] == env[i];
      MapHas(init, i);
    }
  }

  lemma {:induction false} MapHasOnly(env: seq<Variable>, key: seq<Unit>) returns (i: nat)
    requires key in AsMap(env)
    ensures i < |env| && env[i].key == key
  {
    i := |env| - 1;
    if env[i].key != key { i := MapHasOnly(env[..|env| - 1], key); }
  }

  lemma {:induction false} InsertedIs(env: seq<Variable>)
    requires forall v <- env :: EQUALS !in v.key
    ensures Inserted(LinesOf(env)) == AsMap(env)
  {
    if env != [] {
      var (init, last) := (env[..|env| - 1], env[|env| - 1]);
      assert last in env && forall v <- init :: v in env;
      InsertedIs(init);
      assert LinesOf(env)[..|env| - 1] == LinesOf(init) && LinesOf(env)[|env| - 1] == LineOf(last);
      VariableReadsBack(last);
    }
  }

  /** Every variable arrives, and no other. */
  lemma EnvironmentReadsBack(env: seq<Variable>, rest: seq<Byte>)
    requires IsEnvironment(env) && LinesFit(LinesOf(env))
    ensures GetEnvironment(PutEnvironment(env) + rest) == Got(AsMap(env), rest)
  {
    Regroup(PutNat32(|env|), PutLines(LinesOf(env)), rest);
    Nat32ReadsBack(|env|, PutLines(LinesOf(env)) + rest);
    LinesReadBack(LinesOf(env), rest);
    InsertedIs(env);
  }

  // ---------- packets ----------

  /** What goes over the socket, by the opcodes of `Msg`. */
  datatype Packet =
    | Hello(id: nat)
    | Error(text: Text, kind: int)
    | Info(text: Text, kind: int)
    | Request(prompts: seq<Prompt>)
    | Authenticated(user: Text)
    | Release(env: seq<Variable>, cookie: Bytes)      // the daemon's AUTHENTICATED
    | SessionStatus(ok: bool)
    | Receipt                                         // the daemon's SESSION_STATUS

  function Opcode(p: Packet): int {
    match p
    case Hello(_) => 1
    case Error(_, _) => 2
    case Info(_, _) => 3
    case Request(_) => 4
    case Authenticated(_) => 5
    case Release(_, _) => 5
    case SessionStatus(_) => 6
    case Receipt => 6
  }

  predicate Sendable(p: Packet) {
    match p
    case Hello(id) => id < TWO_TO_63
    case Error(text, kind) => TextFits(text) && 0 <= kind < 4
    case Info(text, kind) => TextFits(text) && 0 <= kind < 3
    case Request(prompts) => PromptsFit(prompts)
    case Authenticated(user) => TextFits(user)
    case Release(env, cookie) => IsEnvironment(env) && LinesFit(LinesOf(env)) && (cookie.Bytes? ==> Fits(|cookie.data|))
    case SessionStatus(_) => true
    case Receipt => true
  }

  function Put(p: Packet): seq<Byte>
    requires Sendable(p)
  {
    PutInt32(Opcode(p)) + PutBody(p)
  }

  function PutBody(p: Packet): seq<Byte>
    requires Sendable(p)
  {
    match p
    case Hello(id) => Big(id, 8)
    case Error(text, kind) => PutText(text) + PutInt32(kind)
    case Info(text, kind) => PutText(text) + PutInt32(kind)
    case Request(prompts) => PutRequest(prompts)
    case Authenticated(user) => PutText(user)
    case Release(env, cookie) => PutEnvironment(env) + PutBytes(cookie)
    case SessionStatus(ok) => PutBool(ok)
    case Receipt => []
  }

  /** What the daemon makes of a packet from its helper; what it cannot make sense of is `Short`. */
  function GetFromHelper(s: seq<Byte>): Got<Packet> {
    match GetInt32(s) case Short => Short case Got(opcode, body) => GetBody(opcode, body)
  }

  function GetBody(opcode: int, s: seq<Byte>): Got<Packet> {
    if opcode == 2 then
      match GetText(s) case Short => Short case Got(text, s1) =>
      match GetInt32(s1) case Short => Short case Got(kind, s2) =>
        if 0 <= kind < 4 then Got(Error(text, kind), s2) else Short
    else if opcode == 3 then
      match GetText(s) case Short => Short case Got(text, s1) =>
      match GetInt32(s1) case Short => Short case Got(kind, s2) =>
        if 0 <= kind < 3 then Got(Info(text, kind), s2) else Short
    else if opcode == 4 then
      match GetRequest(s) case Short => Short case Got(prompts, s1) => Got(Request(prompts), s1)
    else if opcode == 5 then
      match GetText(s) case Short => Short case Got(user, s1) => Got(Authenticated(user), s1)
    else if opcode == 6 then
      match GetBool(s) case Short => Short case Got(ok, s1) => Got(SessionStatus(ok), s1)
    else Short
  }

  predicate FromHelper(p: Packet) {
    p.Error? || p.Info? || p.Request? || p.Authenticated? || p.SessionStatus?
  }

  lemma BodyReadsBack(p: Packet, rest: seq<Byte>)
    requires FromHelper(p) && Sendable(p)
    ensures GetBody(Opcode(p), PutBody(p) + rest) == Got(p, rest)
  {
    hide PutText, GetText, PutInt32, GetInt32, PutRequest, GetRequest;
    match p
    case Error(text, kind) => RemarkReadsBack(text, kind, rest);
    case Info(text, kind) => RemarkReadsBack(text, kind, rest);
    case Request(prompts) => RequestReadsBack(prompts, rest);
    case Authenticated(user) => TextReadsBack(user, rest);
    case SessionStatus(ok) => assert (PutBool(ok) + rest)[1..] == rest;
    case _ =>
  }

  /** Each packet of the helper's is read as it was written, and nothing behind it is touched. */
  lemma PacketReadsBack(p: Packet, rest: seq<Byte>)
    requires FromHelper(p) && Sendable(p)
    ensures GetFromHelper(Put(p) + rest) == Got(p, rest)
  {
    hide PutInt32, GetInt32, PutBody, GetBody;
    Regroup(PutInt32(Opcode(p)), PutBody(p), rest);
    Int32ReadsBack(Opcode(p), PutBody(p) + rest);
    BodyReadsBack(p, rest);
  }

  /** The bytes of one packet, for example: a prompt `A` that hides its answer, which is still null. */
  lemma OnePacket(p: Prompt)
    requires p == Prompt(1, Text([65]), true, NoBytes)
    ensures Sendable(Request([p]))
    ensures Put(Request([p]))
         == [0, 0, 0, 4] + ([0, 0, 0, 1]
            + ([0, 0, 0, 1] + ([0, 0, 0, 2, 0, 65] + ([1] + [255, 255, 255, 255]))))
  {
    FourBytes(1, 0, 0, 0, 1);
    FourBytes(4, 0, 0, 0, 4);
    FourBytes(NULL_LENGTH, 255, 255, 255, 255);
    LetterA();
    hide PutNat32, PutText, PutPrompts;
    assert PutPrompts([p]) == PutPrompt(p) by { OnePromptPut(p); }
  }

  lemma LetterA()
    ensures PutText(Text([65])) == [0, 0, 0, 2, 0, 65]
  {
    FourBytes(2, 0, 0, 0, 2);
    assert Big(0, 1) == Big(0, 0) + [0] && Big(65, 2) == Big(0, 1) + [65];
    assert PutUnits([65]) == Big(65, 2) + PutUnits([]);
  }

  lemma OnePromptPut(p: Prompt)
    requires PromptFits(p)
    ensures PutPrompts([p]) == PutPrompt(p)
  {
    hide PutPrompt;
    assert PutPrompts([p]) == PutPrompt(p) + [];
  }

  lemma FourBytes(n: nat, a: Byte, b: Byte, c: Byte, d: Byte)
    requires n == ((a * 256 + b) * 256 + c) * 256 + d
    ensures PutNat32(n) == [a, b, c, d]
  {
    assert Big(a, 1) == Big(0, 0) + [a];
    assert Big(a * 256 + b, 2) == Big(a, 1) + [b];
    assert Big((a * 256 + b) * 256 + c, 3) == Big(a * 256 + b, 2) + [c];
    assert Big(n, 4) == Big((a * 256 + b) * 256 + c, 3) + [d];
  }

  lemma RemarkReadsBack(text: Text, kind: int, rest: seq<Byte>)
    requires TextFits(text) && 0 <= kind < 4
    ensures var got := GetText(PutText(text) + PutInt32(kind) + rest);
      got == Got(text, PutInt32(kind) + rest) && GetInt32(got.rest) == Got(kind, rest)
  {
    Regroup(PutText(text), PutInt32(kind), rest);
    TextReadsBack(text, PutInt32(kind) + rest);
    Int32ReadsBack(kind, rest);
  }

  /** What the helper makes of the daemon's release. */
  lemma ReleaseReadsBack(env: seq<Variable>, cookie: Bytes, rest: seq<Byte>)
    requires Sendable(Release(env, cookie))
    ensures GetInt32(Put(Release(env, cookie)) + rest) == Got(5, PutEnvironment(env) + PutBytes(cookie) + rest)
    ensures GetEnvironment(PutEnvironment(env) + PutBytes(cookie) + rest) == Got(AsMap(env), PutBytes(cookie) + rest)
    ensures GetBytes(PutBytes(cookie) + rest) == Got(cookie, rest)
  {
    Regroup(PutInt32(5), PutEnvironment(env) + PutBytes(cookie), rest);
    Int32ReadsBack(5, PutEnvironment(env) + PutBytes(cookie) + rest);
    Regroup(PutEnvironment(env), PutBytes(cookie), rest);
    EnvironmentReadsBack(env, PutBytes(cookie) + rest);
    BytesReadBack(cookie, rest);
  }

  // ---------- frames ----------

  /** A frame: the length in the machine's byte order, then the data. */
  function Frame(data: seq<Byte>): seq<Byte> {
    Reversed(Big(|data|, 8)) + data
  }

  lemma {:induction false} ReversedAt<T>(s: seq<T>, i: nat)
    requires i < |s|
    ensures Reversed(s)[i] == s[|s| - 1 - i]
  {
    if i < |s| - 1 { ReversedAt(s[1..], i); }
  }

  /** The header: eight bytes, of which the last counts most; the data follow. */
  lemma FrameIs(data: seq<Byte>, i: nat)
    requires i < 8
    ensures |Frame(data)| == 8 + |data| && Frame(data)[8..] == data
    ensures Frame(data)[i] == |data| / Pow(256, i) % 256
  {
    ReversedAt(Big(|data|, 8), i);
    BigEndian(|data|, 8, 7 - i);
  }

  function Frames(messages: seq<seq<Byte>>): seq<Byte> {
    if messages == [] then [] else Frame(messages[0]) + Frames(messages[1..])
  }

  lemma {:induction false} FramesMore(messages: seq<seq<Byte>>, data: seq<Byte>)
    ensures Frames(messages + [data]) == Frames(messages) + Frame(data)
  {
    if messages == [] {
      assert [] + [data] == [data] && [data][1..] == [];
    } else {
      assert (messages + [data])[1..] == messages[1..] + [data];
      FramesMore(messages[1..], data);
      Regroup(Frame(messages[0]), Frames(messages[1..]), Frame(data));
    }
  }

  /** A connected socket seen from both ends: `wire` is what has been written and not yet read. */
  class Socket {
    var wire: seq<Byte>

    constructor ()
      ensures wire == []
    {
      wire := [];
    }

    /** Takes as much as it likes, but something. */
    method Write(data: seq<Byte>) returns (written: nat)
      requires data != []
      modifies this
      ensures 0 < written <= |data| && wire == old(wire) + data[..written]
    {
      written :| 0 < written <= |data|;
      wire := wire + data[..written];
    }

    /** Gives at most `limit` bytes, but something. */
    method Read(limit: nat) returns (data: seq<Byte>)
      requires limit > 0 && wire != []
      modifies this
      ensures 0 < |data| <= limit && data + wire == old(wire)
    {
      var n: nat :| 0 < n <= limit && n <= |wire|;
      data := wire[..n];
      wire := wire[n..];
    }
  }

  class SafeDataStream {
    const device: Socket
    var data: seq<Byte>

    constructor (device: Socket)
      ensures this.device == device && data == []
    {
      this.device := device;
      data := [];
    }

    /** Writes the collected data as one frame, piece by piece. The header goes in one piece. */
    method Send()
      requires |data| < TWO_TO_63
      modifies this, device
      ensures device.wire == old(device.wire) + Frame(old(data)) && data == []
    {
      var length := |data|;
      var header := Reversed(Big(length, 8));
      device.wire := device.wire + header;
      var writtenTotal := 0;
      while writtenTotal != length
        invariant 0 <= writtenTotal <= length == |data| && data == old(data)
        invariant device.wire == old(device.wire) + header + data[..writtenTotal]
        decreases length - writtenTotal
      {
        var written := device.Write(data[writtenTotal..]);
        assert data[..writtenTotal] + data[writtenTotal..][..written] == data[..writtenTotal + written];
        writtenTotal := writtenTotal + written;
      }
      assert data[..writtenTotal] == data;
      data := [];
    }

    /** Reads one frame, piece by piece, and nothing of the next. */
    method Receive(ghost message: seq<Byte>, ghost rest: seq<Byte>)
      requires |message| < TWO_TO_63 && device.wire == Frame(message) + rest
      modifies this, device
      ensures data == message && device.wire == rest
    {
      var header := device.wire[..8];
      HeaderReadsBack(message, rest);
      device.wire := device.wire[8..];
      var length := FromBig(Reversed(header));
      data := [];
      while |data| < length
        invariant data + device.wire == message + rest && |data| <= length == |message|
        decreases length - |data|
      {
        assert device.wire != [] by { assert |data + device.wire| == |message + rest|; }
        ghost var (before, wire) := (data, device.wire);
        var piece := device.Read(length - |data|);
        data := data + piece;
        Regroup(before, piece, device.wire);
      }
      assert data == (data + device.wire)[..|message|] == (message + rest)[..|message|] == message;
      assert device.wire == (data + device.wire)[|message|..] == (message + rest)[|message|..] == rest;
    }
  }

  lemma HeaderReadsBack(message: seq<Byte>, rest: seq<Byte>)
    requires |message| < TWO_TO_64
    ensures var wire := Frame(message) + rest;
      |wire| >= 8 && FromBig(Reversed(wire[..8])) == |message| && wire[8..] == message + rest
  {
    Powers();
    var header := Reversed(Big(|message|, 8));
    ReversedTwice(Big(|message|, 8));
    BigReadsBack(|message|, 8);
    Regroup(header, message, rest);
    assert (header + (message + rest))[..8] == header && (header + (message + rest))[8..] == message + rest;
  }

  /** The frames that have arrived whole in what has arrived so far. */
  function Arrived(s: seq<Byte>): seq<seq<Byte>>
    decreases |s|
  {
    if |s| < 8 then []
    else
      var length := FromBig(Reversed(s[..8]));
      if |s| - 8 < length then [] else [s[8..8 + length]] + Arrived(s[8 + length..])
  }

  lemma FirstArrives(message: seq<Byte>, rest: seq<Byte>)
    requires |message| < TWO_TO_64
    ensures Arrived(Frame(message) + rest) == [message] + Arrived(rest)
  {
    HeaderReadsBack(message, rest);
    var wire := Frame(message) + rest;
    assert wire[8..8 + |message|] == wire[8..][..|message|] == message;
    assert wire[8 + |message|..] == wire[8..][|message|..] == rest;
  }

  lemma PartArrives(message: seq<Byte>, k: nat)
    requires |message| < TWO_TO_64 && k < |Frame(message)|
    ensures Arrived(Frame(message)[..k]) == []
  {
    HeaderReadsBack(message, []);
    assert Frame(message) + [] == Frame(message);
    if k >= 8 { assert Frame(message)[..k][..8] == Frame(message)[..8]; }
  }

  /** Of what has been written, `k` bytes have arrived: exactly the first `j` messages are there whole. */
  predicate InOrder(messages: seq<seq<Byte>>, k: nat, j: nat) {
    && k <= |Frames(messages)| && j <= |messages| && Arrived(Frames(messages)[..k]) == messages[..j]
    && |Frames(messages[..j])| <= k && (j < |messages| ==> k < |Frames(messages[..j + 1])|)
  }

  lemma FramesFront(first: seq<Byte>, tail: seq<seq<Byte>>)
    ensures Frames([first] + tail) == Frame(first) + Frames(tail)
  {
  }

  lemma NothingInOrder(k: nat)
    requires k <= |Frames([])|
    ensures InOrder([], k, 0)
  {
  }

  lemma NoneInOrder(first: seq<Byte>, tail: seq<seq<Byte>>, k: nat)
    requires |first| < TWO_TO_64 && k < |Frame(first)|
    ensures InOrder([first] + tail, k, 0)
  {
    FramesFront(first, tail);
    FramesFront(first, []);
    PartArrives(first, k);
    assert Frames([first] + tail)[..k] == Frame(first)[..k];
    assert ([first] + tail)[..1] == [first] + [];
    hide Arrived, Frame;
  }

  lemma OneMoreInOrder(first: seq<Byte>, tail: seq<seq<Byte>>, k: nat, j: nat)
    requires |first| < TWO_TO_64 && InOrder(tail, k, j)
    ensures InOrder([first] + tail, |Frame(first)| + k, j + 1)
  {
    hide Arrived, Frame, Frames;
    FramesFront(first, tail);
    FramesFront(first, tail[..j]);
    FirstArrives(first, Frames(tail)[..k]);
    assert (Frame(first) + Frames(tail))[..|Frame(first)| + k] == Frame(first) + Frames(tail)[..k];
    assert ([first] + tail)[..j + 1] == [first] + tail[..j];
    if j < |tail| {
      FramesFront(first, tail[..j + 1]);
      assert ([first] + tail)[..j + 2] == [first] + tail[..j + 1];
    }
  }

  /** However writing and reading take turns, the reader has at any time the messages that have
      arrived whole, in order, and no others. */
  lemma {:induction false} AnyTimeInOrder(messages: seq<seq<Byte>>, k: nat) returns (j: nat)
    requires k <= |Frames(messages)| && forall m <- messages :: |m| < TWO_TO_64
    ensures InOrder(messages, k, j)
  {
    hide Arrived, Frame, Frames, InOrder;
    if messages == [] {
      NothingInOrder(k);
      j := 0;
    } else {
      var (first, tail) := (messages[0], messages[1..]);
      assert messages == [first] + tail && first in messages && forall m <- tail :: m in messages;
      FramesFront(first, tail);
      if k < |Frame(first)| {
        NoneInOrder(first, tail, k);
        j := 0;
      } else {
        var i := AnyTimeInOrder(tail, k - |Frame(first)|);
        OneMoreInOrder(first, tail, k - |Frame(first)|, i);
        j := i + 1;
      }
    }
  }

  /** Whatever pieces the socket takes and gives: what is received is what was sent, in order. */
  method Transfer(messages: seq<seq<Byte>>) returns (received: seq<seq<Byte>>)
    requires forall m <- messages :: |m| < TWO_TO_63
    ensures received == messages
  {
    var device := new Socket();
    var sender := new SafeDataStream(device);
    var i := 0;
    assert messages[..0] == [];
    while i < |messages|
      invariant 0 <= i <= |messages|
      invariant fresh(device) && fresh(sender) && sender.device == device
      invariant device.wire == Frames(messages[..i])
    {
      sender.data := messages[i];
      sender.Send();
      FramesMore(messages[..i], messages[i]);
      assert messages[..i + 1] == messages[..i] + [messages[i]];
      i := i + 1;
    }
    assert messages[..i] == messages;
    var receiver := new SafeDataStream(device);
    received := [];
    i := 0;
    while i < |messages|
      invariant 0 <= i <= |messages|
      invariant fresh(device) && fresh(receiver) && receiver.device == device
      invariant received == messages[..i] && device.wire == Frames(messages[i..])
    {
      assert messages[i..][0] == messages[i] && messages[i..][1..] == messages[i + 1..];
      receiver.Receive(messages[i], Frames(messages[i + 1..]));
      received := received + [receiver.data];
      i := i + 1;
    }
  }
}
