/**
 The command record: how a frozen command is printed as pieces, and how the
 resumable decoder of the worker reads those pieces back from arbitrary chunks.
 */
module Records {
  import opened Bytes
  import opened Manifests

  type Field = f: seq<byte> | |f| <= INTEGER_LIMIT
  datatype Pair = Pair(key: Field, value: Field)
  datatype Command = Command(argv: seq<Field>, cwd: Field, environment: seq<Pair>, directories: seq<Field>)

  const NUL: byte := 0
  const SLASH: byte := 47
  const EQUALS: byte := 61

  // ---------- printing ----------

  function U64(n: nat): seq<byte>
    requires n < 0x1_0000_0000_0000_0000
  {
    Powers();
    BigEndian(n, 8)
  }

  lemma U64Number(n: nat)
    requires n < 0x1_0000_0000_0000_0000
    ensures |U64(n)| == 8 && Number(U64(n)) == n
  {
    Powers();
    NumberOfBigEndian(n, 8);
  }

  lemma NumberU64(bs: seq<byte>)
    requires |bs| == 8
    ensures Number(bs) < 0x1_0000_0000_0000_0000
    ensures U64(Number(bs)) == bs
  {
    Powers();
    BigEndianOfNumber(bs);
  }

  function Flatten(pieces: seq<seq<byte>>): seq<byte> {
    if pieces == [] then [] else pieces[0] + Flatten(pieces[1..])
  }

  lemma {:induction false} FlattenAppend(a: seq<seq<byte>>, b: seq<seq<byte>>)
    ensures Flatten(a + b) == Flatten(a) + Flatten(b)
  {
    if a == [] {
      assert a + b == b;
    } else {
      assert (a + b)[1..] == a[1..] + b;
      FlattenAppend(a[1..], b);
    }
  }

  function FieldPieces(xs: seq<Field>): seq<seq<byte>> {
    if xs == [] then []
    else var last := xs[|xs| - 1]; FieldPieces(xs[..|xs| - 1]) + [U64(|last|), last]
  }

  function PairPieces(xs: seq<Pair>): seq<seq<byte>> {
    if xs == [] then []
    else
      var last := xs[|xs| - 1];
      PairPieces(xs[..|xs| - 1]) + [U64(|last.key|), U64(|last.value|), last.key, last.value]
  }

  ghost predicate Countable(c: Command) {
    |c.argv| <= INTEGER_LIMIT && |c.environment| <= INTEGER_LIMIT && |c.directories| <= INTEGER_LIMIT
  }

  function Pieces(c: Command): seq<seq<byte>>
    requires Countable(c)
  {
    [U64(|c.argv|)] + FieldPieces(c.argv) + [U64(|c.cwd|), c.cwd, U64(|c.environment|)]
    + PairPieces(c.environment) + [U64(|c.directories|)] + FieldPieces(c.directories)
  }

  function Record(c: Command): seq<byte>
    requires Countable(c)
  {
    Flatten(Pieces(c))
  }

  // ---------- sizes ----------

  function FieldBytes(xs: seq<Field>): nat {
    if xs == [] then 0 else FieldBytes(xs[..|xs| - 1]) + |xs[|xs| - 1]|
  }

  /** Every entry is charged two more bytes, for the separator and the terminator it will need. */
  function PairBytes(xs: seq<Pair>): nat {
    if xs == [] then 0
    else PairBytes(xs[..|xs| - 1]) + |xs[|xs| - 1].key| + |xs[|xs| - 1].value| + 2
  }

  lemma {:induction false} FieldPiecesSize(xs: seq<Field>)
    ensures |Flatten(FieldPieces(xs))| == 8 * |xs| + FieldBytes(xs)
  {
    if xs != [] {
      var last := xs[|xs| - 1];
      FieldPiecesSize(xs[..|xs| - 1]);
      FlattenAppend(FieldPieces(xs[..|xs| - 1]), [U64(|last|), last]);
      FlattenTwo(U64(|last|), last);
      U64Number(|last|);
    }
  }

  lemma FlattenTwo(a: seq<byte>, b: seq<byte>)
    ensures Flatten([a]) == a && Flatten([a, b]) == a + b
  {
    assert [a, b][1..] == [b] && [b][1..] == [] && [a][1..] == [];
    assert Flatten([b]) == b + [];
  }

  lemma {:induction false} PairPiecesSize(xs: seq<Pair>)
    ensures |Flatten(PairPieces(xs))| == 14 * |xs| + PairBytes(xs)
  {
    if xs != [] {
      var last := xs[|xs| - 1];
      PairPiecesSize(xs[..|xs| - 1]);
      var sizes := [U64(|last.key|), U64(|last.value|)];
      var texts: seq<seq<byte>> := [last.key, last.value];
      assert PairPieces(xs) == PairPieces(xs[..|xs| - 1]) + (sizes + texts);
      FlattenAppend(PairPieces(xs[..|xs| - 1]), sizes + texts);
      FlattenAppend(sizes, texts);
      FlattenTwo(U64(|last.key|), U64(|last.value|));
      FlattenTwo(last.key, last.value);
      U64Number(|last.key|);
      U64Number(|last.value|);
    }
  }

  lemma FieldBytesPlus(xs: seq<Field>, x: Field)
    ensures FieldBytes(xs + [x]) == FieldBytes(xs) + |x|
  {
    assert (xs + [x])[..|xs|] == xs;
  }

  lemma FieldPiecesPlus(xs: seq<Field>, x: Field)
    ensures FieldPieces(xs + [x]) == FieldPieces(xs) + [U64(|x|), x]
  {
    assert (xs + [x])[..|xs|] == xs;
  }

  lemma PairBytesPlus(xs: seq<Pair>, x: Pair)
    ensures PairBytes(xs + [x]) == PairBytes(xs) + |x.key| + |x.value| + 2
  {
    assert (xs + [x])[..|xs|] == xs;
  }

  lemma PairPiecesPlus(xs: seq<Pair>, x: Pair)
    ensures PairPieces(xs + [x]) == PairPieces(xs) + [U64(|x.key|), U64(|x.value|), x.key, x.value]
  {
    assert (xs + [x])[..|xs|] == xs;
  }

  function RecordSize(c: Command): nat {
    32 + 8 * |c.argv| + 14 * |c.environment| + 8 * |c.directories|
    + FieldBytes(c.argv) + |c.cwd| + PairBytes(c.environment) + FieldBytes(c.directories)
  }

  /** The size `_freeze_command` computes up front is the size of what `pieces` prints. */
  lemma RecordLength(c: Command)
    requires Countable(c)
    ensures |Record(c)| == RecordSize(c)
  {
    var a, e, d := FieldPieces(c.argv), PairPieces(c.environment), FieldPieces(c.directories);
    var cwd: seq<seq<byte>> := [U64(|c.cwd|), c.cwd];
    var envc, dirc := [U64(|c.environment|)], [U64(|c.directories|)];
    assert Pieces(c) == [U64(|c.argv|)] + (a + (cwd + (envc + (e + (dirc + d)))));
    FlattenAppend([U64(|c.argv|)], a + (cwd + (envc + (e + (dirc + d)))));
    FlattenAppend(a, cwd + (envc + (e + (dirc + d))));
    FlattenAppend(cwd, envc + (e + (dirc + d)));
    FlattenAppend(envc, e + (dirc + d));
    FlattenAppend(e, dirc + d);
    FlattenAppend(dirc, d);
    FieldPiecesSize(c.argv);
    PairPiecesSize(c.environment);
    FieldPiecesSize(c.directories);
    FlattenTwo(U64(|c.argv|), []);
    FlattenTwo(U64(|c.cwd|), c.cwd);
    FlattenTwo(U64(|c.environment|), []);
    FlattenTwo(U64(|c.directories|), []);
    U64Number(|c.argv|); U64Number(|c.cwd|); U64Number(|c.environment|); U64Number(|c.directories|);
  }

  // ---------- freezing ----------

  ghost predicate GoodPairs(xs: seq<Pair>) {
    && (forall i :: 0 <= i < |xs| ==> |xs[i].key| > 0 && NUL !in xs[i].key && EQUALS !in xs[i].key && NUL !in xs[i].value)
    && (forall i, j :: 0 <= i < j < |xs| ==> xs[i].key != xs[j].key)
  }

  ghost predicate GoodFields(xs: seq<Field>) {
    forall i :: 0 <= i < |xs| ==> NUL !in xs[i]
  }

  /** What `_freeze_command` enforces about the content of a command. */
  ghost predicate Admissible(c: Command) {
    && |c.argv| > 0 && |c.argv[0]| > 0 && GoodFields(c.argv)
    && |c.cwd| > 0 && c.cwd[0] == SLASH && NUL !in c.cwd
    && GoodPairs(c.environment) && GoodFields(c.directories)
  }

  ghost predicate Describes(m: Manifest, c: Command) {
    && m.argc == |c.argv| && m.envc == |c.environment| && m.dirc == |c.directories|
    && m.argumentBytes == FieldBytes(c.argv) && m.cwdBytes == |c.cwd|
    && m.environmentBytes == PairBytes(c.environment) && m.directoryBytes == FieldBytes(c.directories)
    && (|c.argv| > 0 ==> m.search == (SLASH !in c.argv[0]))
    && m.recordBytes == RecordSize(c)
  }

  /** A command that survived `_freeze_command`: admissible, with a valid manifest that describes it. */
  ghost predicate Frozen(sha: Hash, m: Manifest, c: Command) {
    m.Valid() && Admissible(c) && Countable(c) && Describes(m, c) && m.digest == sha(Record(c))
  }

  /** `_freeze_command` after its text-level checks: a manifest for c, or a refusal. */
  ghost function Freeze(sha: Hash, nonce: seq<byte>, capture: bool, jsonSize: nat, limit: nat, host: nat, c: Command)
    : (r: Result<Manifest>)
    ensures r.Ok? ==> Frozen(sha, r.value, c)
  {
    if |nonce| != 16 || !Admissible(c) || !Countable(c) || PairBytes(c.environment) > host then Rejected
    else
      var m := Manifest(nonce, capture, SLASH !in c.argv[0], jsonSize, limit, host,
                        |c.argv|, |c.environment|, |c.directories|, FieldBytes(c.argv), |c.cwd|,
                        PairBytes(c.environment), FieldBytes(c.directories), RecordSize(c), sha(Record(c)));
      if m.Valid() then Ok(m) else Rejected
  }

  lemma {:induction false} FieldBytesBound(xs: seq<Field>)
    ensures FieldBytes(xs) <= |xs| * 0x7FFF_FFFF_FFFF_FFFF
  {
    if xs != [] { FieldBytesBound(xs[..|xs| - 1]); }
  }

  lemma {:induction false} PairBytesBound(xs: seq<Pair>)
    requires forall i :: 0 <= i < |xs| ==> |xs[i].key| > 0
    ensures 3 * |xs| <= PairBytes(xs)
  {
    if xs != [] { PairBytesBound(xs[..|xs| - 1]); }
  }

  lemma {:induction false} FirstFieldBytes(xs: seq<Field>)
    requires xs != []
    ensures |xs[0]| <= FieldBytes(xs)
  {
    if |xs| > 1 { FirstFieldBytes(xs[..|xs| - 1]); }
  }

  /** Of all the clauses of `Manifest.validate`, only these can still refuse an admissible command. */
  lemma FreezeRefusal(sha: Hash, nonce: seq<byte>, capture: bool, jsonSize: nat, limit: nat, host: nat, c: Command)
    requires |nonce| == 16 && Admissible(c) && Countable(c) && |sha(Record(c))| == 32
    ensures var search := SLASH !in c.argv[0];
            Freeze(sha, nonce, capture, jsonSize, limit, host, c).Ok? <==>
              && 1 <= jsonSize <= REQUEST_LIMIT && 1 <= limit <= OUTPUT_LIMIT && 1 <= host <= INTEGER_LIMIT
              && |c.argv| <= 4096 && PairBytes(c.environment) <= host
              && (search ==> |c.directories| > 0) && (!search ==> |c.directories| == 0)
  {
    FieldBytesBound(c.argv);
    FieldBytesBound(c.directories);
    PairBytesBound(c.environment);
    FirstFieldBytes(c.argv);
    hide FieldBytes, PairBytes, Pieces, GoodPairs, GoodFields;
    var d, a := |c.directories|, |c.argv|;
    if a <= 4096 && PairBytes(c.environment) <= host <= INTEGER_LIMIT {
      assert d * 0x7FFF_FFFF_FFFF_FFFF <= 0x7FFF_FFFF_FFFF_FFFF * 0x7FFF_FFFF_FFFF_FFFF;
      assert RecordSize(c) < 0x8000_0000_0000_0000_0000_0000_0000_0000;
    }
  }

  // ---------- the field machine of the decoder ----------

  datatype Stage =
    | ArgCount | ArgSize | ArgBody(count: nat)
    | CwdSize | CwdBody
    | EnvCount | KeySize | ValueSize(keySize: nat) | KeyBody(keySize: nat, valueSize: nat)
    | ValueBody(key: Field, valueSize: nat)
    | DirCount | DirSize | DirBody(count: nat)
    | Complete

  datatype Reading = Reading(stage: Stage, command: Command)

  const Start := Reading(ArgCount, Command([], [], [], []))

  function Need(m: Manifest, stage: Stage): nat {
    match stage
    case ArgBody(count) => count
    case CwdBody => m.cwdBytes
    case KeyBody(keySize, _) => keySize
    case ValueBody(_, valueSize) => valueSize
    case DirBody(count) => count
    case Complete => 0
    case _ => 8
  }

  /** The counts and sizes read so far stay within what the manifest announced. */
  ghost predicate Within(m: Manifest, c: Command) {
    && 0 < m.cwdBytes <= INTEGER_LIMIT
    && |c.argv| <= m.argc && FieldBytes(c.argv) <= m.argumentBytes
    && |c.environment| <= m.envc && PairBytes(c.environment) <= m.environmentBytes
    && |c.directories| <= m.dirc && FieldBytes(c.directories) <= m.directoryBytes
  }

  /** What has been counted so far is consistent with the stage that reads on. */
  ghost predicate Consistent(m: Manifest, r: Reading) {
    var c := r.command;
    Within(m, c) &&
    match r.stage
    case ArgCount => c == Start.command
    case ArgSize => |c.argv| < m.argc
    case ArgBody(count) =>
      |c.argv| < m.argc && count <= INTEGER_LIMIT && FieldBytes(c.argv) + count <= m.argumentBytes
    case CwdSize => true
    case CwdBody => true
    case EnvCount => true
    case KeySize => |c.environment| < m.envc
    case ValueSize(ks) => |c.environment| < m.envc && ks < 0x1_0000_0000_0000_0000
    case KeyBody(ks, vs) =>
      |c.environment| < m.envc && ks <= INTEGER_LIMIT && vs <= INTEGER_LIMIT
      && PairBytes(c.environment) + ks + vs + 2 <= m.environmentBytes
    case ValueBody(key, vs) =>
      |c.environment| < m.envc && vs <= INTEGER_LIMIT
      && PairBytes(c.environment) + |key| + vs + 2 <= m.environmentBytes
    case DirCount => true
    case DirSize => |c.directories| < m.dirc
    case DirBody(count) =>
      |c.directories| < m.dirc && count <= INTEGER_LIMIT && FieldBytes(c.directories) + count <= m.directoryBytes
    case Complete => true
  }

  // The decoder asks for fields in a fixed order, also for empty ones: the section,
  // the items left in it and the fields left in the item shrink lexicographically.

  ghost function Section(stage: Stage): nat {
    match stage
    case ArgCount => 7
    case ArgSize => 6
    case ArgBody(_) => 6
    case CwdSize => 5
    case CwdBody => 4
    case EnvCount => 3
    case KeySize => 2
    case ValueSize(_) => 2
    case KeyBody(_, _) => 2
    case ValueBody(_, _) => 2
    case DirCount => 1
    case DirSize => 0
    case DirBody(_) => 0
    case Complete => 0
  }

  ghost function ItemsLeft(m: Manifest, r: Reading): int {
    match r.stage
    case ArgSize => m.argc - |r.command.argv|
    case ArgBody(_) => m.argc - |r.command.argv|
    case KeySize => m.envc - |r.command.environment|
    case ValueSize(_) => m.envc - |r.command.environment|
    case KeyBody(_, _) => m.envc - |r.command.environment|
    case ValueBody(_, _) => m.envc - |r.command.environment|
    case DirSize => m.dirc - |r.command.directories|
    case DirBody(_) => m.dirc - |r.command.directories|
    case _ => 0
  }

  ghost function FieldsLeft(stage: Stage): nat {
    match stage
    case ArgSize => 2
    case KeySize => 4
    case ValueSize(_) => 3
    case KeyBody(_, _) => 2
    case DirSize => 2
    case Complete => 0
    case _ => 1
  }

  ghost predicate Smaller(m: Manifest, r': Reading, r: Reading) {
    || Section(r'.stage) < Section(r.stage)
    || (Section(r'.stage) == Section(r.stage)
        && (0 <= ItemsLeft(m, r') < ItemsLeft(m, r)
            || (ItemsLeft(m, r') == ItemsLeft(m, r) && FieldsLeft(r'.stage) < FieldsLeft(r.stage))))
  }

  function NextArgument(m: Manifest, c: Command): Result<Reading> {
    if |c.argv| < m.argc then Ok(Reading(ArgSize, c))
    else if FieldBytes(c.argv) == m.argumentBytes && |c.argv| > 0 && (SLASH !in c.argv[0]) == m.search
    then Ok(Reading(CwdSize, c)) else Rejected
  }

  function NextPair(m: Manifest, c: Command): Result<Reading> {
    if |c.environment| < m.envc then Ok(Reading(KeySize, c))
    else if PairBytes(c.environment) == m.environmentBytes then Ok(Reading(DirCount, c)) else Rejected
  }

  function NextDirectory(m: Manifest, c: Command): Result<Reading> {
    if |c.directories| < m.dirc then Ok(Reading(DirSize, c))
    else if FieldBytes(c.directories) == m.directoryBytes then Ok(Reading(Complete, c)) else Rejected
  }

  predicate KnownKey(xs: seq<Pair>, key: Field) {
    exists i :: 0 <= i < |xs| && xs[i].key == key
  }

  function SendArgument(m: Manifest, r: Reading, field: seq<byte>): (result: Result<Reading>)
    requires Consistent(m, r) && |field| == Need(m, r.stage)
    requires r.stage.ArgCount? || r.stage.ArgSize? || r.stage.ArgBody?
  {
    var c := r.command;
    if r.stage.ArgCount? then
      if Number(field) == m.argc then NextArgument(m, c) else Rejected
    else if r.stage.ArgSize? then
      var count := Number(field);
      if count <= INTEGER_LIMIT && count <= m.argumentBytes - FieldBytes(c.argv) && (count > 0 || |c.argv| != 0)
      then Ok(Reading(ArgBody(count), c)) else Rejected
    else
      if NUL in field then Rejected
      else
        NextArgument(m, c.(argv := c.argv + [field]))
  }

  function SendCwd(m: Manifest, r: Reading, field: seq<byte>): (result: Result<Reading>)
    requires Consistent(m, r) && |field| == Need(m, r.stage)
    requires r.stage.CwdSize? || r.stage.CwdBody?
  {
    var c := r.command;
    if r.stage.CwdSize? then
      if Number(field) == m.cwdBytes then Ok(Reading(CwdBody, c)) else Rejected
    else if NUL in field || field[0] != SLASH then Rejected
    else Ok(Reading(EnvCount, c.(cwd := field)))
  }

  function SendDirectory(m: Manifest, r: Reading, field: seq<byte>): (result: Result<Reading>)
    requires Consistent(m, r) && |field| == Need(m, r.stage)
    requires r.stage.DirCount? || r.stage.DirSize? || r.stage.DirBody?
  {
    var c := r.command;
    if r.stage.DirCount? then
      if Number(field) == m.dirc then NextDirectory(m, c) else Rejected
    else if r.stage.DirSize? then
      var count := Number(field);
      if count <= INTEGER_LIMIT && count <= m.directoryBytes - FieldBytes(c.directories)
      then Ok(Reading(DirBody(count), c)) else Rejected
    else
      if NUL in field then Rejected
      else
        NextDirectory(m, c.(directories := c.directories + [field]))
  }

  function SendPair(m: Manifest, r: Reading, field: seq<byte>): (result: Result<Reading>)
    requires Consistent(m, r) && |field| == Need(m, r.stage)
    requires r.stage.EnvCount? || r.stage.KeySize? || r.stage.ValueSize? || r.stage.KeyBody? || r.stage.ValueBody?
  {
    var c := r.command;
    if r.stage.EnvCount? then
      if Number(field) == m.envc then NextPair(m, c) else Rejected
    else if r.stage.KeySize? then Ok(Reading(ValueSize(Number(field)), c))
    else if r.stage.ValueSize? then
      var ks := r.stage.keySize;
      var vs := Number(field);
      if 0 < ks <= INTEGER_LIMIT && vs <= INTEGER_LIMIT && ks + vs + 2 <= m.environmentBytes - PairBytes(c.environment)
      then Ok(Reading(KeyBody(ks, vs), c)) else Rejected
    else if r.stage.KeyBody? then Ok(Reading(ValueBody(field, r.stage.valueSize), c))
    else
      var key := r.stage.key;
      if NUL in key || EQUALS in key || KnownKey(c.environment, key) || NUL in field then Rejected
      else
        NextPair(m, c.(environment := c.environment + [Pair(key, field)]))
  }

  /** One resumption of the field generator with the field it asked for. */
  function Send(m: Manifest, r: Reading, field: seq<byte>): (result: Result<Reading>)
    requires Consistent(m, r) && !r.stage.Complete? && |field| == Need(m, r.stage)
  {
    if r.stage.ArgCount? || r.stage.ArgSize? || r.stage.ArgBody? then SendArgument(m, r, field)
    else if r.stage.CwdSize? || r.stage.CwdBody? then SendCwd(m, r, field)
    else if r.stage.DirCount? || r.stage.DirSize? || r.stage.DirBody? then SendDirectory(m, r, field)
    else SendPair(m, r, field)
  }

  /** Every accepted field brings the decoder strictly closer to completion, whatever its length. */
  ghost predicate Advances(m: Manifest, r: Reading, field: seq<byte>)
    requires Consistent(m, r) && !r.stage.Complete? && |field| == Need(m, r.stage)
  {
    var s := Send(m, r, field);
    s.Ok? ==> Consistent(m, s.value) && Smaller(m, s.value, r)
  }

  lemma ArgumentAdvances(m: Manifest, r: Reading, field: seq<byte>)
    requires Consistent(m, r) && |field| == Need(m, r.stage)
    requires r.stage.ArgCount? || r.stage.ArgSize? || r.stage.ArgBody?
    ensures Advances(m, r, field)
  {
    hide U64, Number, FieldBytes, PairBytes, FieldPieces, PairPieces;
    if r.stage.ArgBody? { FieldBytesPlus(r.command.argv, field); }
  }

  lemma CwdAdvances(m: Manifest, r: Reading, field: seq<byte>)
    requires Consistent(m, r) && |field| == Need(m, r.stage)
    requires r.stage.CwdSize? || r.stage.CwdBody?
    ensures Advances(m, r, field)
  {
    hide U64, Number, FieldBytes, PairBytes, FieldPieces, PairPieces;
  }

  lemma PairAdvances(m: Manifest, r: Reading, field: seq<byte>)
    requires Consistent(m, r) && |field| == Need(m, r.stage)
    requires r.stage.EnvCount? || r.stage.KeySize? || r.stage.ValueSize? || r.stage.KeyBody?
    ensures Advances(m, r, field)
  {
    hide U64, Number, FieldBytes, PairBytes, FieldPieces, PairPieces;
    if r.stage.KeySize? { NumberU64(field); }
  }

  lemma ValueAdvances(m: Manifest, r: Reading, field: seq<byte>)
    requires Consistent(m, r) && |field| == Need(m, r.stage) && r.stage.ValueBody?
    ensures Advances(m, r, field)
  {
    hide U64, Number, FieldBytes, PairBytes, FieldPieces, PairPieces;
    PairBytesPlus(r.command.environment, Pair(r.stage.key, field));
  }

  lemma DirectoryAdvances(m: Manifest, r: Reading, field: seq<byte>)
    requires Consistent(m, r) && |field| == Need(m, r.stage)
    requires r.stage.DirCount? || r.stage.DirSize?
    ensures Advances(m, r, field)
  {
    hide U64, Number, FieldBytes, PairBytes, FieldPieces, PairPieces;
  }

  lemma DirectoryBodyAdvances(m: Manifest, r: Reading, field: seq<byte>)
    requires Consistent(m, r) && |field| == Need(m, r.stage) && r.stage.DirBody?
    ensures Advances(m, r, field)
  {
    hide U64, Number, FieldBytes, PairBytes, FieldPieces, PairPieces;
    FieldBytesPlus(r.command.directories, field);
  }

  lemma SendAdvances(m: Manifest, r: Reading, field: seq<byte>)
    requires Consistent(m, r) && !r.stage.Complete? && |field| == Need(m, r.stage)
    ensures Advances(m, r, field)
  {
    hide Consistent, Advances, Need;
    if r.stage.ArgCount? || r.stage.ArgSize? || r.stage.ArgBody? { ArgumentAdvances(m, r, field); }
    else if r.stage.CwdSize? || r.stage.CwdBody? { CwdAdvances(m, r, field); }
    else if r.stage.ValueBody? { ValueAdvances(m, r, field); }
    else if r.stage.DirCount? || r.stage.DirSize? { DirectoryAdvances(m, r, field); }
    else if r.stage.DirBody? { DirectoryBodyAdvances(m, r, field); }
    else { PairAdvances(m, r, field); }
  }
}
