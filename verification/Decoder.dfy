/**
 The resumable record decoder: every split of a frozen record reads back to the
 same command, and nothing but that record completes.
 */
module Decoders {
  import opened Bytes
  import opened Manifests
  import opened Records

  // ---------- content read so far ----------

  /** The sections already passed are complete and well formed; later ones are untouched. */
  ghost predicate Clean(m: Manifest, r: Reading) {
    var c := r.command;
    var at := Section(r.stage);
    && m.Valid() && Consistent(m, r)
    && (at >= 7 ==> c.argv == []) && (at >= 3 ==> c.environment == []) && (at >= 1 ==> c.directories == [])
    && GoodFields(c.argv) && (|c.argv| > 0 ==> |c.argv[0]| > 0)
    && (r.stage.ArgBody? ==> r.stage.count > 0 || c.argv != [])
    && (at <= 5 ==> |c.argv| == m.argc && FieldBytes(c.argv) == m.argumentBytes && m.search == (SLASH !in c.argv[0]))
    && (at <= 3 ==> |c.cwd| == m.cwdBytes && c.cwd[0] == SLASH && NUL !in c.cwd)
    && GoodPairs(c.environment) && GoodFields(c.directories)
    && (r.stage.KeyBody? ==> r.stage.keySize > 0) && (r.stage.ValueBody? ==> r.stage.key != [])
    && (at <= 1 ==> |c.environment| == m.envc && PairBytes(c.environment) == m.environmentBytes)
    && (r.stage.Complete? ==> |c.directories| == m.dirc && FieldBytes(c.directories) == m.directoryBytes)
  }

  lemma GoodPairsPlus(xs: seq<Pair>, key: Field, value: Field)
    requires GoodPairs(xs) && key != [] && NUL !in key && EQUALS !in key && NUL !in value && !KnownKey(xs, key)
    ensures GoodPairs(xs + [Pair(key, value)])
  {
  }

  lemma NoPieces()
    ensures FieldPieces([]) == [] && PairPieces([]) == [] && FieldBytes([]) == 0 && PairBytes([]) == 0
  {
  }

  lemma GoodFieldsPlus(xs: seq<Field>, x: Field)
    requires GoodFields(xs)
    ensures NUL !in x ==> GoodFields(xs + [x])
  {
  }

  // ---------- the pieces consumed so far ----------

  function ThroughArguments(m: Manifest, c: Command): seq<seq<byte>>
    requires m.Valid()
  {
    [U64(m.argc)] + FieldPieces(c.argv)
  }

  function ThroughCwd(m: Manifest, c: Command): seq<seq<byte>>
    requires m.Valid()
  {
    ThroughArguments(m, c) + [U64(m.cwdBytes), c.cwd]
  }

  function ThroughPairs(m: Manifest, c: Command): seq<seq<byte>>
    requires m.Valid()
  {
    ThroughCwd(m, c) + [U64(m.envc)] + PairPieces(c.environment)
  }

  function ThroughDirectories(m: Manifest, c: Command): seq<seq<byte>>
    requires m.Valid()
  {
    ThroughPairs(m, c) + [U64(m.dirc)] + FieldPieces(c.directories)
  }

  function Consumed(m: Manifest, r: Reading): seq<seq<byte>>
    requires m.Valid() && Consistent(m, r)
  {
    var c := r.command;
    match r.stage
    case ArgCount => []
    case ArgSize => ThroughArguments(m, c)
    case ArgBody(count) => ThroughArguments(m, c) + [U64(count)]
    case CwdSize => ThroughArguments(m, c)
    case CwdBody => ThroughArguments(m, c) + [U64(m.cwdBytes)]
    case EnvCount => ThroughCwd(m, c)
    case KeySize => ThroughPairs(m, c)
    case ValueSize(ks) => ThroughPairs(m, c) + [U64(ks)]
    case KeyBody(ks, vs) => ThroughPairs(m, c) + [U64(ks), U64(vs)]
    case ValueBody(key, vs) => ThroughPairs(m, c) + [U64(|key|), U64(vs), key]
    case DirCount => ThroughPairs(m, c)
    case DirSize => ThroughDirectories(m, c)
    case DirBody(count) => ThroughDirectories(m, c) + [U64(count)]
    case Complete => ThroughDirectories(m, c)
  }

  /** The contract of one accepted field: the reading stays clean and the field is the next piece printed. */
  ghost predicate Prints(m: Manifest, r: Reading, field: seq<byte>)
    requires Clean(m, r) && !r.stage.Complete? && |field| == Need(m, r.stage)
  {
    var s := Send(m, r, field);
    s.Ok? ==> Clean(m, s.value) && Consumed(m, s.value) == Consumed(m, r) + [field]
  }

  lemma ArgumentSizesPrint(m: Manifest, r: Reading, field: seq<byte>)
    requires Clean(m, r) && |field| == Need(m, r.stage)
    requires r.stage.ArgCount? || r.stage.ArgSize?
    ensures Prints(m, r, field)
  {
    hide GoodPairs, GoodFields, Manifest.Valid, U64, Number, FieldBytes, PairBytes, FieldPieces, PairPieces;
    NumberU64(field);
    NoPieces();
  }

  lemma ArgumentClean(m: Manifest, r: Reading, field: seq<byte>)
    requires Clean(m, r) && |field| == Need(m, r.stage) && r.stage.ArgBody?
    ensures var s := Send(m, r, field); s.Ok? ==> Clean(m, s.value)
  {
    hide GoodPairs, GoodFields, Manifest.Valid, U64, Number, FieldBytes, PairBytes, FieldPieces, PairPieces;
    FieldBytesPlus(r.command.argv, field);
    GoodFieldsPlus(r.command.argv, field);
  }

  lemma ThroughArgumentsPlus(m: Manifest, c: Command, field: Field)
    requires m.Valid()
    ensures ThroughArguments(m, c.(argv := c.argv + [field]))
            == (ThroughArguments(m, c) + [U64(|field|)]) + [field]
  {
    hide U64, FieldPieces;
    FieldPiecesPlus(c.argv, field);
  }

  lemma ArgumentPrints(m: Manifest, r: Reading, field: seq<byte>)
    requires Clean(m, r) && |field| == Need(m, r.stage) && r.stage.ArgBody?
    ensures Prints(m, r, field)
  {
    ArgumentClean(m, r, field);
    ThroughArgumentsPlus(m, r.command, field);
    ArgumentConsumed(m, r, field);
  }

  lemma ArgumentConsumed(m: Manifest, r: Reading, field: seq<byte>)
    requires m.Valid() && Consistent(m, r) && r.stage.ArgBody? && |field| == Need(m, r.stage) && |field| <= INTEGER_LIMIT
    requires var s := Send(m, r, field); s.Ok? ==> Consistent(m, s.value)
    requires ThroughArguments(m, r.command.(argv := r.command.argv + [field]))
             == (ThroughArguments(m, r.command) + [U64(|field|)]) + [field]
    ensures var s := Send(m, r, field); s.Ok? ==> Consumed(m, s.value) == Consumed(m, r) + [field]
  {
    hide ThroughDirectories, ThroughPairs, ThroughArguments, ThroughCwd, U64, Number, Manifest.Valid;
    hide FieldBytes, PairBytes, FieldPieces, PairPieces;
  }

  lemma CwdPrints(m: Manifest, r: Reading, field: seq<byte>)
    requires Clean(m, r) && |field| == Need(m, r.stage)
    requires r.stage.CwdSize? || r.stage.CwdBody?
    ensures Prints(m, r, field)
  {
    hide GoodPairs, Manifest.Valid, U64, Number, FieldBytes, PairBytes, FieldPieces, PairPieces;
    if r.stage.CwdSize? { NumberU64(field); }
  }

  lemma PairSizesPrint(m: Manifest, r: Reading, field: seq<byte>)
    requires Clean(m, r) && |field| == Need(m, r.stage)
    requires r.stage.EnvCount? || r.stage.KeySize? || r.stage.ValueSize?
    ensures Prints(m, r, field)
  {
    hide GoodPairs, GoodFields, Manifest.Valid, U64, Number, FieldBytes, PairBytes, FieldPieces, PairPieces;
    NumberU64(field);
    NoPieces();
  }

  lemma KeyPrints(m: Manifest, r: Reading, field: seq<byte>)
    requires Clean(m, r) && |field| == Need(m, r.stage) && r.stage.KeyBody?
    ensures Prints(m, r, field)
  {
    hide GoodPairs, GoodFields, Manifest.Valid, U64, Number, FieldBytes, PairBytes, FieldPieces, PairPieces;
  }

  lemma ValuePrints(m: Manifest, r: Reading, field: seq<byte>)
    requires Clean(m, r) && |field| == Need(m, r.stage) && r.stage.ValueBody?
    ensures Prints(m, r, field)
  {
    hide GoodPairs, GoodFields, Manifest.Valid, U64, Number, FieldBytes, PairBytes, FieldPieces, PairPieces;
    var c, key := r.command, r.stage.key;
    PairBytesPlus(c.environment, Pair(key, field));
    if Send(m, r, field).Ok? {
      GoodPairsPlus(c.environment, key, field);
      ThroughPairsPlus(m, c, Pair(key, field));
    }
  }

  lemma ThroughPairsPlus(m: Manifest, c: Command, pair: Pair)
    requires m.Valid()
    ensures ThroughPairs(m, c.(environment := c.environment + [pair]))
            == ThroughPairs(m, c) + [U64(|pair.key|), U64(|pair.value|), pair.key] + [pair.value]
  {
    hide U64;
    PairPiecesPlus(c.environment, pair);
  }

  lemma DirectorySizesPrint(m: Manifest, r: Reading, field: seq<byte>)
    requires Clean(m, r) && |field| == Need(m, r.stage)
    requires r.stage.DirCount? || r.stage.DirSize?
    ensures Prints(m, r, field)
  {
    hide GoodPairs, GoodFields, Manifest.Valid, U64, Number, FieldBytes, PairBytes, FieldPieces, PairPieces;
    NumberU64(field);
    NoPieces();
  }

  lemma DirectoryClean(m: Manifest, r: Reading, field: seq<byte>)
    requires Clean(m, r) && |field| == Need(m, r.stage) && r.stage.DirBody?
    ensures var s := Send(m, r, field); s.Ok? ==> Clean(m, s.value)
  {
    hide GoodPairs, GoodFields, Manifest.Valid, U64, Number, FieldBytes, PairBytes, FieldPieces, PairPieces;
    FieldBytesPlus(r.command.directories, field);
    GoodFieldsPlus(r.command.directories, field);
  }

  lemma ThroughDirectoriesPlus(m: Manifest, c: Command, field: Field)
    requires m.Valid()
    ensures ThroughDirectories(m, c.(directories := c.directories + [field]))
            == (ThroughDirectories(m, c) + [U64(|field|)]) + [field]
  {
    hide U64, FieldPieces;
    FieldPiecesPlus(c.directories, field);
  }

  lemma DirectoryPrints(m: Manifest, r: Reading, field: seq<byte>)
    requires Clean(m, r) && |field| == Need(m, r.stage) && r.stage.DirBody?
    ensures Prints(m, r, field)
  {
    DirectoryClean(m, r, field);
    ThroughDirectoriesPlus(m, r.command, field);
    DirectoryConsumed(m, r, field);
  }

  lemma DirectoryConsumed(m: Manifest, r: Reading, field: seq<byte>)
    requires m.Valid() && Consistent(m, r) && r.stage.DirBody? && |field| == Need(m, r.stage) && |field| <= INTEGER_LIMIT
    requires var s := Send(m, r, field); s.Ok? ==> Consistent(m, s.value)
    requires ThroughDirectories(m, r.command.(directories := r.command.directories + [field]))
             == (ThroughDirectories(m, r.command) + [U64(|field|)]) + [field]
    ensures var s := Send(m, r, field); s.Ok? ==> Consumed(m, s.value) == Consumed(m, r) + [field]
  {
    hide ThroughDirectories, ThroughPairs, ThroughArguments, ThroughCwd, U64, Number, Manifest.Valid;
    hide FieldBytes, PairBytes, FieldPieces, PairPieces;
  }

  lemma SendPrints(m: Manifest, r: Reading, field: seq<byte>)
    requires Clean(m, r) && !r.stage.Complete? && |field| == Need(m, r.stage)
    ensures Prints(m, r, field)
  {
    hide Clean, Prints, Need;
    if r.stage.ArgCount? || r.stage.ArgSize? { ArgumentSizesPrint(m, r, field); }
    else if r.stage.ArgBody? { ArgumentPrints(m, r, field); }
    else if r.stage.CwdSize? || r.stage.CwdBody? { CwdPrints(m, r, field); }
    else if r.stage.EnvCount? || r.stage.KeySize? || r.stage.ValueSize? { PairSizesPrint(m, r, field); }
    else if r.stage.KeyBody? { KeyPrints(m, r, field); }
    else if r.stage.ValueBody? { ValuePrints(m, r, field); }
    else if r.stage.DirBody? { DirectoryPrints(m, r, field); }
    else { DirectorySizesPrint(m, r, field); }
  }

  // ---------- driving the field machine over a byte stream ----------

  datatype Progress = Poison | At(reading: Reading, rest: seq<byte>)

  /** Cut as many fields as the bytes allow; bytes after the last field are a poison. */
  function Drive(m: Manifest, r: Reading, bs: seq<byte>): (p: Progress)
    requires Consistent(m, r)
    ensures p.At? ==> Consistent(m, p.reading)
    ensures p.At? && !p.reading.stage.Complete? ==> |p.rest| < Need(m, p.reading.stage)
    ensures p.At? && p.reading.stage.Complete? ==> p.rest == []
    decreases Section(r.stage), ItemsLeft(m, r), FieldsLeft(r.stage)
  {
    if r.stage.Complete? then if bs == [] then At(r, bs) else Poison
    else
      var need := Need(m, r.stage);
      if |bs| < need then At(r, bs)
      else
        var s := Send(m, r, bs[..need]);
        SendAdvances(m, r, bs[..need]);
        if s.Rejected? then Poison else Drive(m, s.value, bs[need..])
  }

  /** Resumption is transparent: stopping after a and going on with b is reading a + b at once. */
  lemma {:induction false} DriveAppend(m: Manifest, r: Reading, a: seq<byte>, b: seq<byte>)
    requires Consistent(m, r)
    ensures var p := Drive(m, r, a);
            Drive(m, r, a + b) == if p.Poison? then Poison else Drive(m, p.reading, p.rest + b)
    decreases Section(r.stage), ItemsLeft(m, r), FieldsLeft(r.stage)
  {
    if r.stage.Complete? {
      assert a == [] ==> a + b == b;
    } else {
      var need := Need(m, r.stage);
      if need <= |a| {
        assert (a + b)[..need] == a[..need] && (a + b)[need..] == a[need..] + b;
        SendAdvances(m, r, a[..need]);
        var s := Send(m, r, a[..need]);
        if s.Ok? { DriveAppend(m, s.value, a[need..], b); }
      }
    }
  }

  lemma Shift(buffer: seq<byte>, content: seq<byte>, offset: nat, take: nat)
    requires offset + take <= |content|
    ensures buffer + content[offset..] == (buffer + content[offset..offset + take]) + content[offset + take..]
  {
  }

  lemma DriveShort(m: Manifest, r: Reading, bs: seq<byte>)
    requires Consistent(m, r) && !r.stage.Complete? && |bs| < Need(m, r.stage)
    ensures Drive(m, r, bs) == At(r, bs)
  {
  }

  lemma DriveField(m: Manifest, r: Reading, field: seq<byte>, rest: seq<byte>)
    requires Consistent(m, r) && !r.stage.Complete? && |field| == Need(m, r.stage)
    ensures var s := Send(m, r, field);
            (s.Ok? ==> Consistent(m, s.value))
            && Drive(m, r, field + rest) == if s.Rejected? then Poison else Drive(m, s.value, rest)
  {
    SendAdvances(m, r, field);
    assert (field + rest)[..|field|] == field && (field + rest)[|field|..] == rest;
  }

  lemma CompleteRefusesMore(m: Manifest, r: Reading, bs: seq<byte>)
    requires Consistent(m, r) && r.stage.Complete?
    ensures Drive(m, r, bs) == if bs == [] then At(r, []) else Poison
  {
  }

  /** Nothing is lost or invented: consumed pieces followed by buffered bytes are the stream. */
  lemma {:induction false} DriveConsumes(m: Manifest, r: Reading, bs: seq<byte>)
    requires Clean(m, r)
    ensures var p := Drive(m, r, bs);
            p.At? ==> Clean(m, p.reading)
                      && Flatten(Consumed(m, r)) + bs == Flatten(Consumed(m, p.reading)) + p.rest
    decreases Section(r.stage), ItemsLeft(m, r), FieldsLeft(r.stage)
  {
    hide Consumed, Consistent, Flatten, Send, GoodPairs, GoodFields, Manifest.Valid, U64, Number, FieldBytes, PairBytes, FieldPieces, PairPieces;
    if !r.stage.Complete? && Need(m, r.stage) <= |bs| {
      var need := Need(m, r.stage);
      var field := bs[..need];
      var s := Send(m, r, field);
      if s.Ok? {
        SendAdvances(m, r, field);
        SendPrints(m, r, field);
        DriveConsumes(m, s.value, bs[need..]);
        FlattenAppend(Consumed(m, r), [field]);
        FlattenTwo(field, []);
        assert bs == field + bs[need..];
        calc {
          Flatten(Consumed(m, r)) + bs;
          (Flatten(Consumed(m, r)) + field) + bs[need..];
          Flatten(Consumed(m, s.value)) + bs[need..];
        }
      }
    }
  }

  lemma StartClean(m: Manifest)
    requires m.Valid()
    ensures Clean(m, Start) && Consumed(m, Start) == []
  {
  }

  lemma CompleteIsFrozen(m: Manifest, r: Reading)
    requires Clean(m, r) && r.stage.Complete?
    ensures Admissible(r.command) && Countable(r.command) && Describes(m, r.command)
    ensures Consumed(m, r) == Pieces(r.command)
  {
    hide GoodPairs, GoodFields, U64, FieldBytes, PairBytes, FieldPieces, PairPieces;
    var c := r.command;
    assert Describes(m, c);
    assert ThroughDirectories(m, c) == Pieces(c) by {
      hide Clean, Manifest.Valid, Describes;
      assert ThroughPairs(m, c) == [U64(|c.argv|)] + FieldPieces(c.argv)
        + [U64(|c.cwd|), c.cwd, U64(|c.environment|)] + PairPieces(c.environment);
    }
  }

  // ---------- the stream of a frozen command ----------

  /** The reading is a snapshot of reading the frozen command c, between two of its fields. */
  ghost predicate OnWay(m: Manifest, c: Command, r: Reading) {
    var d := r.command;
    var a, e, k := |d.argv|, |d.environment|, |d.directories|;
    && Clean(m, r) && Admissible(c) && Countable(c) && Describes(m, c)
    && d.argv <= c.argv && d.environment <= c.environment && d.directories <= c.directories
    && (Section(r.stage) <= 3 ==> d.cwd == c.cwd)
    && (r.stage.ArgBody? ==> r.stage.count == |c.argv[a]|)
    && (r.stage.ValueSize? ==> r.stage.keySize == |c.environment[e].key|)
    && (r.stage.KeyBody? ==> r.stage.keySize == |c.environment[e].key| && r.stage.valueSize == |c.environment[e].value|)
    && (r.stage.ValueBody? ==> r.stage.key == c.environment[e].key && r.stage.valueSize == |c.environment[e].value|)
    && (r.stage.DirBody? ==> r.stage.count == |c.directories[k]|)
  }

  function Expected(m: Manifest, c: Command, r: Reading): seq<byte>
    requires OnWay(m, c, r) && !r.stage.Complete?
  {
    var d := r.command;
    match r.stage
    case ArgCount => U64(|c.argv|)
    case ArgSize => U64(|c.argv[|d.argv|]|)
    case ArgBody(_) => c.argv[|d.argv|]
    case CwdSize => U64(|c.cwd|)
    case CwdBody => c.cwd
    case EnvCount => U64(|c.environment|)
    case KeySize => U64(|c.environment[|d.environment|].key|)
    case ValueSize(_) => U64(|c.environment[|d.environment|].value|)
    case KeyBody(_, _) => c.environment[|d.environment|].key
    case ValueBody(_, _) => c.environment[|d.environment|].value
    case DirCount => U64(|c.directories|)
    case DirSize => U64(|c.directories[|d.directories|]|)
    case DirBody(_) => c.directories[|d.directories|]
  }

  lemma {:induction false} FieldBytesPrefix(xs: seq<Field>, k: nat)
    requires k < |xs|
    ensures FieldBytes(xs[..k]) + |xs[k]| <= FieldBytes(xs)
    ensures xs[..k] + [xs[k]] == xs[..k + 1]
    decreases |xs| - k
  {
    FieldBytesPlus(xs[..k], xs[k]);
    assert xs[..k] + [xs[k]] == xs[..k + 1];
    if k + 1 < |xs| {
      FieldBytesPrefix(xs, k + 1);
    } else {
      assert xs[..k + 1] == xs;
    }
  }

  lemma {:induction false} PairBytesPrefix(xs: seq<Pair>, k: nat)
    requires k < |xs|
    ensures PairBytes(xs[..k]) + |xs[k].key| + |xs[k].value| + 2 <= PairBytes(xs)
    ensures xs[..k] + [xs[k]] == xs[..k + 1]
    decreases |xs| - k
  {
    PairBytesPlus(xs[..k], xs[k]);
    assert xs[..k] + [xs[k]] == xs[..k + 1];
    if k + 1 < |xs| {
      PairBytesPrefix(xs, k + 1);
    } else {
      assert xs[..k + 1] == xs;
    }
  }

  lemma PrefixIsTake<T>(a: seq<T>, b: seq<T>)
    requires a <= b
    ensures a == b[..|a|]
  {
  }

  ghost predicate Follows(m: Manifest, c: Command, r: Reading)
    requires OnWay(m, c, r) && !r.stage.Complete?
  {
    var field := Expected(m, c, r);
    |field| == Need(m, r.stage) && Send(m, r, field).Ok? && OnWay(m, c, Send(m, r, field).value)
  }

  lemma ArgumentFollows(m: Manifest, c: Command, r: Reading)
    requires OnWay(m, c, r)
    requires r.stage.ArgCount? || r.stage.ArgSize?
    ensures Follows(m, c, r)
  {
    hide GoodPairs, GoodFields, Manifest.Valid, U64, Number, FieldBytes, PairBytes, FieldPieces, PairPieces;
    var i := |r.command.argv|;
    PrefixIsTake(r.command.argv, c.argv);
    U64Number(|c.argv|);
    if i < |c.argv| { FieldBytesPrefix(c.argv, i); U64Number(|c.argv[i]|); }
    ArgumentSizesPrint(m, r, Expected(m, c, r));
  }

  lemma ArgumentBodyFollows(m: Manifest, c: Command, r: Reading)
    requires OnWay(m, c, r) && r.stage.ArgBody?
    ensures Follows(m, c, r)
  {
    hide GoodPairs, GoodFields, Manifest.Valid, U64, Number, FieldBytes, PairBytes, FieldPieces, PairPieces;
    var i := |r.command.argv|;
    PrefixIsTake(r.command.argv, c.argv);
    FieldBytesPlus(r.command.argv, c.argv[i]);
    FieldAt(c.argv, i);
    TakeOneMore(r.command.argv, c.argv);
    ArgumentPrints(m, r, Expected(m, c, r));
  }

  lemma TakeOneMore<T>(a: seq<T>, b: seq<T>)
    requires a < b
    ensures a + [b[|a|]] <= b
    ensures |a| + 1 == |b| ==> a + [b[|a|]] == b
  {
  }

  lemma FieldAt(xs: seq<Field>, i: nat)
    requires GoodFields(xs) && i < |xs|
    ensures NUL !in xs[i]
  {
  }

  lemma CwdFollows(m: Manifest, c: Command, r: Reading)
    requires OnWay(m, c, r)
    requires r.stage.CwdSize? || r.stage.CwdBody?
    ensures Follows(m, c, r)
  {
    hide GoodPairs, GoodFields, Manifest.Valid, U64, Number, FieldBytes, PairBytes, FieldPieces, PairPieces;
    U64Number(|c.cwd|);
    CwdPrints(m, r, Expected(m, c, r));
  }

  lemma PairAt(xs: seq<Pair>, ys: seq<Pair>, i: nat)
    requires GoodPairs(xs) && i < |xs| && i == |ys| && ys <= xs
    ensures |xs[i].key| > 0 && NUL !in xs[i].key && EQUALS !in xs[i].key && NUL !in xs[i].value
    ensures !KnownKey(ys, xs[i].key)
  {
  }

  lemma PairFollows(m: Manifest, c: Command, r: Reading)
    requires OnWay(m, c, r)
    requires r.stage.EnvCount? || r.stage.KeySize? || r.stage.ValueSize?
    ensures Follows(m, c, r)
  {
    hide GoodPairs, GoodFields, Manifest.Valid, U64, Number, FieldBytes, PairBytes, FieldPieces, PairPieces;
    var i := |r.command.environment|;
    U64Number(|c.environment|);
    PrefixIsTake(r.command.environment, c.environment);
    if i < |c.environment| {
      PairAt(c.environment, r.command.environment, i);
      PairBytesPrefix(c.environment, i);
      U64Number(|c.environment[i].key|);
      U64Number(|c.environment[i].value|);
    }
    PairSizesPrint(m, r, Expected(m, c, r));
  }

  lemma KeyFollows(m: Manifest, c: Command, r: Reading)
    requires OnWay(m, c, r) && r.stage.KeyBody?
    ensures Follows(m, c, r)
  {
    hide GoodPairs, GoodFields, Manifest.Valid, U64, Number, FieldBytes, PairBytes, FieldPieces, PairPieces;
    KeyPrints(m, r, Expected(m, c, r));
  }

  lemma ValueFollows(m: Manifest, c: Command, r: Reading)
    requires OnWay(m, c, r) && r.stage.ValueBody?
    ensures Follows(m, c, r)
  {
    hide GoodPairs, GoodFields, Manifest.Valid, U64, Number, FieldBytes, PairBytes, FieldPieces, PairPieces;
    var i := |r.command.environment|;
    PrefixIsTake(r.command.environment, c.environment);
    PairAt(c.environment, r.command.environment, i);
    PairBytesPrefix(c.environment, i);
    PairBytesPlus(r.command.environment, c.environment[i]);
    TakeOneMore(r.command.environment, c.environment);
    ValuePrints(m, r, Expected(m, c, r));
  }

  lemma DirectoryFollows(m: Manifest, c: Command, r: Reading)
    requires OnWay(m, c, r)
    requires r.stage.DirCount? || r.stage.DirSize?
    ensures Follows(m, c, r)
  {
    hide GoodPairs, GoodFields, Manifest.Valid, U64, Number, FieldBytes, PairBytes, FieldPieces, PairPieces;
    var i := |r.command.directories|;
    PrefixIsTake(r.command.directories, c.directories);
    U64Number(|c.directories|);
    if i < |c.directories| { FieldBytesPrefix(c.directories, i); U64Number(|c.directories[i]|); }
    DirectorySizesPrint(m, r, Expected(m, c, r));
  }

  lemma DirectoryBodyFollows(m: Manifest, c: Command, r: Reading)
    requires OnWay(m, c, r) && r.stage.DirBody?
    ensures Follows(m, c, r)
  {
    hide GoodPairs, GoodFields, Manifest.Valid, U64, Number, FieldBytes, PairBytes, FieldPieces, PairPieces;
    var i := |r.command.directories|;
    PrefixIsTake(r.command.directories, c.directories);
    FieldBytesPlus(r.command.directories, c.directories[i]);
    FieldAt(c.directories, i);
    TakeOneMore(r.command.directories, c.directories);
    DirectoryPrints(m, r, Expected(m, c, r));
  }

  lemma ExpectedFollows(m: Manifest, c: Command, r: Reading)
    requires OnWay(m, c, r) && !r.stage.Complete?
    ensures Follows(m, c, r)
  {
    hide OnWay, Follows;
    if r.stage.ArgCount? || r.stage.ArgSize? { ArgumentFollows(m, c, r); }
    else if r.stage.ArgBody? { ArgumentBodyFollows(m, c, r); }
    else if r.stage.CwdSize? || r.stage.CwdBody? { CwdFollows(m, c, r); }
    else if r.stage.KeyBody? { KeyFollows(m, c, r); }
    else if r.stage.ValueBody? { ValueFollows(m, c, r); }
    else if r.stage.DirCount? || r.stage.DirSize? { DirectoryFollows(m, c, r); }
    else if r.stage.DirBody? { DirectoryBodyFollows(m, c, r); }
    else { PairFollows(m, c, r); }
  }

  lemma CompleteIsWhole(m: Manifest, c: Command, r: Reading)
    requires OnWay(m, c, r) && r.stage.Complete?
    ensures r.command == c
  {
    hide GoodPairs, GoodFields, Manifest.Valid, U64, Number, FieldBytes, PairBytes, FieldPieces, PairPieces;
  }

  /** From any point on its way, the rest of a frozen command's record drives the decoder to its end. */
  lemma {:induction false} Forward(m: Manifest, c: Command, r: Reading) returns (rest: seq<byte>)
    requires OnWay(m, c, r)
    ensures Flatten(Consumed(m, r)) + rest == Record(c)
    ensures Drive(m, r, rest) == At(Reading(Complete, c), [])
    decreases Section(r.stage), ItemsLeft(m, r), FieldsLeft(r.stage)
  {
    hide Consumed, Consistent, Expected, Send, GoodPairs, GoodFields, Manifest.Valid, Need, Describes, Pieces, U64, Number, FieldBytes, PairBytes, FieldPieces, PairPieces;
    if r.stage.Complete? {
      rest := [];
      CompleteIsFrozen(m, r);
      CompleteIsWhole(m, c, r);
    } else {
      var field := Expected(m, c, r);
      ExpectedFollows(m, c, r);
      SendAdvances(m, r, field);
      SendPrints(m, r, field);
      var next := Send(m, r, field).value;
      var tail := Forward(m, c, next);
      rest := field + tail;
      assert rest[..|field|] == field && rest[|field|..] == tail;
      FlattenAppend(Consumed(m, r), [field]);
      FlattenTwo(field, []);
    }
  }

  lemma DriveRecord(m: Manifest, c: Command)
    requires m.Valid() && Admissible(c) && Countable(c) && Describes(m, c)
    ensures Drive(m, Start, Record(c)) == At(Reading(Complete, c), [])
  {
    StartClean(m);
    var rest := Forward(m, c, Start);
    assert Flatten(Consumed(m, Start)) + rest == rest;
  }

  // ---------- feeding chunks ----------

  datatype Session = Poisoned | Live(reading: Reading, buffer: seq<byte>, seen: seq<byte>)
  {
    predicate Done() { Live? && reading.stage.Complete? }
  }

  const Fresh := Live(Start, [], [])

  ghost predicate Sound(m: Manifest, s: Session) {
    m.Valid() && (s.Live? ==> Consistent(m, s.reading))
  }

  /** One `feed`: refused content, a refused field, surplus bytes and a wrong digest all poison for good. */
  function Fed(sha: Hash, m: Manifest, s: Session, content: seq<byte>): (s': Session)
    requires Sound(m, s)
    ensures Sound(m, s')
  {
    if s.Poisoned? || s.Done() || !(0 < |content| <= CHUNK) || |s.seen| + |content| > m.recordBytes then Poisoned
    else
      var seen := s.seen + content;
      var p := Drive(m, s.reading, s.buffer + content);
      if p.Poison? then Poisoned
      else if p.reading.stage.Complete? && !(|seen| == m.recordBytes && sha(seen) == m.digest) then Poisoned
      else Live(p.reading, p.rest, seen)
  }

  function FedAll(sha: Hash, m: Manifest, s: Session, pieces: seq<seq<byte>>): (s': Session)
    requires Sound(m, s)
    ensures Sound(m, s')
    decreases |pieces|
  {
    if pieces == [] then s else FedAll(sha, m, Fed(sha, m, s, pieces[0]), pieces[1..])
  }

  lemma {:induction false} PoisonStays(sha: Hash, m: Manifest, pieces: seq<seq<byte>>)
    requires m.Valid()
    ensures FedAll(sha, m, Poisoned, pieces) == Poisoned
  {
    if pieces != [] {
      PoisonStays(sha, m, pieces[1..]);
    }
  }

  /** A session is on the stream bs when driving bs from the start arrives exactly at the session. */
  ghost predicate Caught(m: Manifest, s: Session) {
    s.Live? && m.Valid() && Drive(m, Start, s.seen) == At(s.reading, s.buffer)
  }

  lemma FeedIsDrive(m: Manifest, s: Session, content: seq<byte>)
    requires Caught(m, s) && !s.Done() && Sound(m, s)
    ensures Drive(m, s.reading, s.buffer + content) == Drive(m, Start, s.seen + content)
  {
    StartClean(m);
    DriveAppend(m, Start, s.seen, content);
  }

  lemma {:induction false} FeedPrefix(sha: Hash, m: Manifest, c: Command, s: Session, pieces: seq<seq<byte>>)
    requires Frozen(sha, m, c) && Caught(m, s) && Sound(m, s)
    requires s.seen + Flatten(pieces) == Record(c) && (s.Done() ==> pieces == [])
    requires forall i :: 0 <= i < |pieces| ==> 0 < |pieces[i]| <= CHUNK
    ensures FedAll(sha, m, s, pieces) == Live(Reading(Complete, c), [], Record(c))
    decreases |pieces|
  {
    hide Frozen, Pieces, Consistent, Flatten, Manifest.Valid, Drive;
    FrozenStream(sha, m, c);
    StartClean(m);
    if pieces == [] {
      FlattenEmpty();
      assert s.seen == Record(c);
    } else {
      var content, tail := pieces[0], pieces[1..];
      FlattenFirst(pieces);
      var rest := Flatten(tail);
      FeedIsDrive(m, s, content);
      var seen := s.seen + content;
      assert seen + rest == Record(c);
      DriveAppend(m, Start, seen, rest);
      var p := Drive(m, Start, seen);
      var s' := Fed(sha, m, s, content);
      if p.reading.stage.Complete? {
        CompleteRefusesMore(m, p.reading, p.rest + rest);
        assert rest == [];
        assert seen == Record(c);
        if tail != [] { FlattenFirst(tail); }
      }
      FeedPrefix(sha, m, c, s', tail);
    }
  }

  lemma FrozenStream(sha: Hash, m: Manifest, c: Command)
    requires Frozen(sha, m, c)
    ensures Countable(c) && m.Valid() && Drive(m, Start, Record(c)) == At(Reading(Complete, c), [])
    ensures |Record(c)| == m.recordBytes && sha(Record(c)) == m.digest
  {
    DriveRecord(m, c);
    RecordLength(c);
  }

  lemma FlattenEmpty()
    ensures Flatten([]) == []
  {
  }

  lemma FlattenFirst(pieces: seq<seq<byte>>)
    requires pieces != []
    ensures Flatten(pieces) == pieces[0] + Flatten(pieces[1..])
  {
  }

  /** Main result: however a frozen record is split into nonempty chunks, the worker reads the frozen command. */
  lemma AnySplitDecodes(sha: Hash, m: Manifest, c: Command, pieces: seq<seq<byte>>)
    requires Frozen(sha, m, c) && Flatten(pieces) == Record(c)
    requires forall i :: 0 <= i < |pieces| ==> 0 < |pieces[i]| <= CHUNK
    ensures FedAll(sha, m, Fresh, pieces) == Live(Reading(Complete, c), [], Record(c))
  {
    StartClean(m);
    FeedPrefix(sha, m, c, Fresh, pieces);
  }

  lemma {:induction false} FeedHistory(sha: Hash, m: Manifest, s: Session, pieces: seq<seq<byte>>)
    requires Sound(m, s) && Caught(m, s)
    requires s.Done() ==> |s.seen| == m.recordBytes && sha(s.seen) == m.digest
    ensures var s' := FedAll(sha, m, s, pieces);
            s'.Live? ==> Caught(m, s') && s'.seen == s.seen + Flatten(pieces)
                         && (s'.Done() ==> |s'.seen| == m.recordBytes && sha(s'.seen) == m.digest)
    decreases |pieces|
  {
    hide Consistent, Flatten, Drive, Manifest.Valid;
    if pieces == [] {
      FlattenEmpty();
      assert s.seen + Flatten(pieces) == s.seen;
    } else {
      FlattenFirst(pieces);
      var s1 := Fed(sha, m, s, pieces[0]);
      if s1.Poisoned? {
        PoisonStays(sha, m, pieces[1..]);
      } else {
        FeedIsDrive(m, s, pieces[0]);
        FeedHistory(sha, m, s1, pieces[1..]);
      }
    }
  }

  /** Converse: whatever completes is, byte for byte, the record of the command it decoded to. */
  lemma OnlyTheRecordCompletes(sha: Hash, m: Manifest, pieces: seq<seq<byte>>)
    requires m.Valid()
    ensures var s := FedAll(sha, m, Fresh, pieces);
            s.Done() ==> Frozen(sha, m, s.reading.command) && Flatten(pieces) == Record(s.reading.command)
  {
    StartClean(m);
    FeedHistory(sha, m, Fresh, pieces);
    var s := FedAll(sha, m, Fresh, pieces);
    if s.Done() {
      assert s.seen == Flatten(pieces);
      DriveConsumes(m, Start, s.seen);
      CompleteIsFrozen(m, s.reading);
      assert Flatten(Consumed(m, Start)) + s.seen == s.seen;
      assert Flatten(Consumed(m, s.reading)) + [] == Flatten(Consumed(m, s.reading));
    }
  }

  /** The field checks alone force the announced size; `feed` need not compare it to reject a short record. */
  lemma FieldsForceLength(m: Manifest, bs: seq<byte>)
    requires m.Valid()
    ensures var p := Drive(m, Start, bs);
            p.At? && p.reading.stage.Complete? ==>
              |bs| == m.recordBytes
              && |bs| == 32 + 8 * m.argc + 14 * m.envc + 8 * m.dirc
                         + m.argumentBytes + m.cwdBytes + m.environmentBytes + m.directoryBytes
  {
    StartClean(m);
    var p := Drive(m, Start, bs);
    if p.At? && p.reading.stage.Complete? {
      DriveConsumes(m, Start, bs);
      CompleteIsFrozen(m, p.reading);
      RecordLength(p.reading.command);
      assert Flatten(Consumed(m, Start)) + bs == bs;
    }
  }

  /** Two frozen commands with one manifest and one record are the same command. */
  lemma RecordsAreUnambiguous(sha: Hash, m: Manifest, c: Command, d: Command)
    requires Frozen(sha, m, c) && Frozen(sha, m, d) && Record(c) == Record(d)
    ensures c == d
  {
    DriveRecord(m, c);
    DriveRecord(m, d);
  }

  // ---------- the decoder object ----------

  class NativeRecordDecoder {
    const sha: Hash
    const manifest: Manifest
    var parser: Reading
    var need: nat
    var buffer: seq<byte>
    var received: nat
    var hashed: seq<byte>
    var poisoned: bool
    var complete: bool

    ghost predicate Valid() reads this {
      && manifest.Valid() && received == |hashed|
      && (!poisoned ==>
        && Consistent(manifest, parser) && need == Need(manifest, parser.stage)
        && complete == parser.stage.Complete?
        && (if complete then buffer == [] else |buffer| < need))
    }

    /** The session this object stands for. */
    ghost function View(): (s: Session)
      requires Valid()
      reads this
      ensures Sound(manifest, s)
    {
      if poisoned then Poisoned else Live(parser, buffer, hashed)
    }

    constructor (sha: Hash, manifest: Manifest)
      requires manifest.Valid()
      ensures Valid() && View() == Fresh && this.sha == sha && this.manifest == manifest
    {
      this.sha, this.manifest := sha, manifest;
      parser, need, buffer, received, hashed := Start, 8, [], 0, [];
      poisoned, complete := false, false;
    }

    method Feed(content: seq<byte>) returns (accepted: bool)
      requires Valid()
      modifies this
      ensures Valid()
      ensures View() == Fed(sha, manifest, old(View()), content)
      ensures accepted == View().Live?
    {
      hide Consistent, Send, Need, Manifest.Valid, Drive, Section, ItemsLeft, FieldsLeft;
      if poisoned || complete || !(0 < |content| <= CHUNK) || received + |content| > manifest.recordBytes {
        poisoned := true;
        return false;
      }
      ghost var reading0, buffer0, hashed0 := parser, buffer, hashed;
      received := received + |content|;
      hashed := hashed + content;
      var offset := 0;
      assert content[offset..] == content;
      while offset < |content| || need == 0
        invariant 0 <= offset <= |content|
        invariant !poisoned && !complete && received == |hashed| && hashed == hashed0 + content
        invariant Consistent(manifest, parser) && !parser.stage.Complete? && need == Need(manifest, parser.stage)
        invariant |buffer| < need || (need == 0 && buffer == [])
        invariant Drive(manifest, reading0, buffer0 + content) == Drive(manifest, parser, buffer + content[offset..])
        decreases Section(parser.stage), ItemsLeft(manifest, parser), FieldsLeft(parser.stage), |content| - offset
      {
        var take := if need - |buffer| < |content| - offset then need - |buffer| else |content| - offset;
        Shift(buffer, content, offset, take);
        buffer := buffer + content[offset..offset + take];
        offset := offset + take;
        if |buffer| != need {
          break;
        }
        var field := buffer;
        buffer := [];
        DriveField(manifest, parser, field, content[offset..]);
        SendAdvances(manifest, parser, field);
        var next := Send(manifest, parser, field);
        if next.Rejected? {
          poisoned := true;
          return false;
        }
        parser := next.value;
        need := Need(manifest, parser.stage);
        assert [] + content[offset..] == content[offset..];
        if parser.stage.Complete? {
          CompleteRefusesMore(manifest, parser, content[offset..]);
          if offset != |content| || received != manifest.recordBytes || sha(hashed) != manifest.digest {
            poisoned := true;
            return false;
          }
          complete := true;
          return true;
        }
      }
      assert buffer + content[offset..] == buffer;
      DriveShort(manifest, parser, buffer);
      return true;
    }

    method Finish() returns (accepted: bool)
      requires Valid()
      modifies this
      ensures Valid() && accepted == old(View()).Done()
      ensures View() == if accepted then old(View()) else Poisoned
    {
      accepted := complete && !poisoned && buffer == [];
      poisoned := !accepted;
    }
  }
}
