/**
 * Server-argument extractor and flag rendering: the `serverArguments`
 * object of the observed configuration becomes an argument map, the map
 * becomes `--key=value` flags, and the flags become one continuation-joined
 * string.
 */
module ServerArguments {
  import opened Results
  import opened Text
  import opened Unstructured
  import opened ShellEscape

  /** `serverArguments`: argument name to its escaped values, in declared order. */
  type ArgMap = map<string, seq<string>>

  /** The JSON field the extractor decodes. */
  const ServerArgumentsField: string := "serverArguments"

  datatype ExtractError =
    | UnmarshalFailed(found: Value)               // `serverArguments` is present but not an object
    | IncorrectValue(key: string, value: Value)   // an entry is neither a string list nor a string

  // ---------------------------------------------------------------------
  // Extraction
  // ---------------------------------------------------------------------

  /** The value a list of strings decodes from. */
  function StrList(xs: seq<string>): Value {
    List(seq(|xs|, i requires 0 <= i < |xs| => Str(xs[i])))
  }

  /** `unstructured.NestedStringSlice` on a present value. */
  function StringSlice(v: Value): (r: Option<seq<string>>)
    ensures r.Some? ==> v == StrList(r.value)
    ensures r.None? ==> forall xs :: v != StrList(xs)
  {
    if v.List? && forall i :: 0 <= i < |v.items| ==> v.items[i].Str? then
      var xs := seq(|v.items|, i requires 0 <= i < |v.items| => v.items[i].s);
      assert v.items == StrList(xs).items;
      Some(xs)
    else
      assert forall xs :: v != StrList(xs) by {
        forall xs ensures v != StrList(xs) {
          if v.List? && |xs| == |v.items| {
            var i :| 0 <= i < |v.items| && !v.items[i].Str?;
            assert StrList(xs).items[i] == Str(xs[i]);
          }
        }
      }
      None
  }

  lemma {:induction false} StrListInjective(xs: seq<string>, ys: seq<string>)
    requires StrList(xs) == StrList(ys)
    ensures xs == ys
  {
    assert |xs| == |StrList(xs).items| == |ys|;
    forall i | 0 <= i < |xs| ensures xs[i] == ys[i] {
      assert StrList(xs).items[i] == Str(xs[i]);
      assert StrList(ys).items[i] == Str(ys[i]);
    }
  }

  /**
   * The raw values of one entry: a string list as it is, otherwise a single
   * string as a one-element list (`NestedString`), otherwise nothing.
   */
  function RawArgument(v: Value): (r: Option<seq<string>>)
    ensures v.Str? ==> r == Some([v.s])
    ensures r.Some? <==> v.Str? || exists xs :: v == StrList(xs)
    ensures forall xs :: v == StrList(xs) ==> r == Some(xs)
  {
    match StringSlice(v)
    case Some(xs) =>
      assert forall ys :: v == StrList(ys) ==> xs == ys by {
        forall ys | v == StrList(ys) ensures xs == ys { StrListInjective(xs, ys); }
      }
      Some(xs)
    case None => if v.Str? then Some([v.s]) else None
  }

  /** Every value escaped with `MaybeQuote`, in order. */
  function QuoteAll(xs: seq<string>): seq<string> {
    seq(|xs|, i requires 0 <= i < |xs| => MaybeQuote(xs[i]))
  }

  /** The extraction succeeds: no `serverArguments`, a null, or an object of well-typed entries. */
  predicate Extractable(config: Config) {
    ServerArgumentsField !in config
    || config[ServerArgumentsField].Null?
    || (config[ServerArgumentsField].Object?
        && forall k :: k in config[ServerArgumentsField].fields ==>
             RawArgument(config[ServerArgumentsField].fields[k]).Some?)
  }

  /** The argument map an extractable configuration yields. */
  function ExpectedArguments(config: Config): ArgMap
    requires Extractable(config)
  {
    if ServerArgumentsField !in config || config[ServerArgumentsField].Null? then map[]
    else
      var fields := config[ServerArgumentsField].fields;
      map k | k in fields :: QuoteAll(RawArgument(fields[k]).value)
  }

  /** `e` is a faithful report of a defect of `config`. */
  predicate Reports(config: Config, e: ExtractError) {
    && ServerArgumentsField in config
    && var v := config[ServerArgumentsField];
    match e
    case UnmarshalFailed(found) => found == v && !v.Null? && !v.Object?
    case IncorrectValue(key, value) =>
      v.Object? && key in v.fields && v.fields[key] == value && RawArgument(value).None?
  }

  /** The inner loop of `getServerArguments`: every value of one entry escaped, in order. */
  method EscapeValues(argsSlice: seq<string>) returns (escapedArgsSlice: seq<string>)
    ensures escapedArgsSlice == QuoteAll(argsSlice)
  {
    escapedArgsSlice := [];
    for i := 0 to |argsSlice|
      invariant escapedArgsSlice == QuoteAll(argsSlice[..i])
    {
      escapedArgsSlice := escapedArgsSlice + [MaybeQuote(argsSlice[i])];
    }
    assert argsSlice[..|argsSlice|] == argsSlice;
  }

  /**
   * `getServerArguments`, as intended: the entries are visited in any order
   * (Go's map order), each entry's raw values are escaped and stored; the
   * first malformed entry met aborts the whole extraction.
   */
  method GetServerArguments(config: Config) returns (r: Result<ArgMap, ExtractError>)
    ensures r.Success? <==> Extractable(config)
    ensures r.Success? ==> r.value == ExpectedArguments(config)
    ensures r.Failure? ==> Reports(config, r.error)
  {
    if ServerArgumentsField !in config || config[ServerArgumentsField].Null? {
      return Success(map[]);
    }
    var decoded := config[ServerArgumentsField];
    if !decoded.Object? {
      return Failure(UnmarshalFailed(decoded));
    }
    var fields := decoded.fields;
    var args: ArgMap := map[];
    var remaining := fields.Keys;
    while remaining != {}
      invariant remaining <= fields.Keys
      invariant args.Keys == fields.Keys - remaining
      invariant forall k :: k in args ==>
                  RawArgument(fields[k]).Some? && args[k] == QuoteAll(RawArgument(fields[k]).value)
      decreases remaining
    {
      var argName :| argName in remaining;
      var argValue := fields[argName];
      var argsSlice: seq<string>;
      match StringSlice(argValue) {
        case Some(xs) =>
          argsSlice := xs;
        case None =>
          if !argValue.Str? {
            return Failure(IncorrectValue(argName, argValue));
          }
          argsSlice := [argValue.s];
      }
      var escapedArgsSlice := EscapeValues(argsSlice);
      args := args[argName := escapedArgsSlice];
      remaining := remaining - {argName};
    }
    return Success(args);
  }

  // ---------------------------------------------------------------------
  // Flag rendering
  // ---------------------------------------------------------------------

  /** One flag token. */
  function Flag(key: string, value: string): (r: string)
    ensures |r| == |key| + |value| + 3
    ensures r[..2] == "--" && r[2..2 + |key|] == key && r[2 + |key|] == '=' && r[3 + |key|..] == value
  {
    "--" + key + "=" + value
  }

  /** The flags of one key, one per value, in stored order. */
  function KeyFlags(key: string, values: seq<string>): seq<string> {
    seq(|values|, i requires 0 <= i < |values| => Flag(key, values[i]))
  }

  /** The values stored under `key`; none when it is not stored. */
  function Values(args: ArgMap, key: string): seq<string> {
    if key in args then args[key] else []
  }

  /** The flags of the keys `keys`, taken in that order. */
  function FlagsFor(keys: seq<string>, args: ArgMap): seq<string>
    decreases |keys|
  {
    if keys == [] then []
    else FlagsFor(keys[..|keys| - 1], args) + KeyFlags(keys[|keys| - 1], Values(args, keys[|keys| - 1]))
  }

  /** Some enumeration of a set, in no particular order. */
  ghost function SetToSeq(s: set<string>): (r: seq<string>)
    ensures multiset(r) == multiset(s)
    decreases s
  {
    if s == {} then []
    else
      var x :| x in s;
      var r := [x] + SetToSeq(s - {x});
      assert multiset(s) == multiset{x} + multiset(s - {x});
      r
  }

  lemma {:induction false} MultisetMembers(ks: seq<string>, keys: set<string>)
    requires multiset(ks) == multiset(keys)
    ensures forall k :: k in ks <==> k in keys
  {
    forall k ensures k in ks <==> k in keys {
      assert k in ks <==> k in multiset(ks);
    }
  }

  /** The argument names in lexicographic order. */
  ghost function SortedKeys(args: ArgMap): (ks: seq<string>)
    ensures Sorted(ks) && multiset(ks) == multiset(args.Keys)
    ensures forall k :: k in ks <==> k in args
  {
    var ks := SortStrings(SetToSeq(args.Keys));
    MultisetMembers(ks, args.Keys);
    ks
  }

  /** The flags `serverArgsToStringSlice` produces. */
  ghost function Flags(args: ArgMap): seq<string> {
    FlagsFor(SortedKeys(args), args)
  }

  /** The argument names, collected in Go's map order and then sorted. */
  method SortedArgumentNames(args: ArgMap) returns (keys: seq<string>)
    ensures keys == SortedKeys(args)
  {
    keys := [];
    var rest := args.Keys;
    while rest != {}
      invariant multiset(keys) + multiset(rest) == multiset(args.Keys)
      decreases rest
    {
      var key :| key in rest;
      CollectStep(keys, rest, key);
      keys := keys + [key];
      rest := rest - {key};
    }
    SortCollectedKeys(keys, args);
    keys := SortStrings(keys);
  }

  /**
   * `serverArgsToStringSlice`: take the names in sorted order, then emit
   * one flag per value, name by name.
   */
  method ServerArgsToStringSlice(args: ArgMap) returns (flags: seq<string>)
    ensures flags == Flags(args)
  {
    var keys := SortedArgumentNames(args);
    flags := [];
    for i := 0 to |keys|
      invariant flags == FlagsFor(keys[..i], args)
    {
      var key := keys[i];
      var values := args[key];
      for j := 0 to |values|
        invariant flags == FlagsFor(keys[..i], args) + KeyFlags(key, values[..j])
      {
        EmitValue(FlagsFor(keys[..i], args), key, values, j);
        flags := flags + [Flag(key, values[j])];
      }
      EmitKey(keys, i, args);
    }
    assert keys[..|keys|] == keys;
  }

  lemma {:induction false} CollectStep(keys: seq<string>, rest: set<string>, key: string)
    requires key in rest
    ensures multiset(keys + [key]) + multiset(rest - {key}) == multiset(keys) + multiset(rest)
  {
    assert multiset(rest) == multiset(rest - {key}) + multiset{key};
  }

  lemma {:induction false} SortCollectedKeys(keys: seq<string>, args: ArgMap)
    requires multiset(keys) == multiset(args.Keys)
    ensures SortStrings(keys) == SortedKeys(args)
  {
    SortedUnique(SortStrings(keys), SortedKeys(args));
  }

  /** Emitting the next value of the current key extends the flags of its prefix of values. */
  lemma {:induction false} EmitValue(done: seq<string>, key: string, values: seq<string>, j: int)
    requires 0 <= j < |values|
    ensures done + KeyFlags(key, values[..j]) + [Flag(key, values[j])] == done + KeyFlags(key, values[..j + 1])
  {
    KeyFlagsSnoc(key, values, j);
  }

  /** Emitting all values of the next key extends the flags of the prefix of keys. */
  lemma {:induction false} EmitKey(keys: seq<string>, i: int, args: ArgMap)
    requires 0 <= i < |keys| && keys[i] in args
    ensures FlagsFor(keys[..i], args) + KeyFlags(keys[i], args[keys[i]][..|args[keys[i]]|])
            == FlagsFor(keys[..i + 1], args)
  {
    assert args[keys[i]][..|args[keys[i]]|] == args[keys[i]];
    FlagsForSnoc(keys, i, args);
  }

  lemma {:induction false} KeyFlagsSnoc(key: string, values: seq<string>, j: int)
    requires 0 <= j < |values|
    ensures KeyFlags(key, values[..j + 1]) == KeyFlags(key, values[..j]) + [Flag(key, values[j])]
  {
  }

  lemma {:induction false} FlagsForSnoc(keys: seq<string>, i: int, args: ArgMap)
    requires 0 <= i < |keys|
    ensures FlagsFor(keys[..i + 1], args) == FlagsFor(keys[..i], args) + KeyFlags(keys[i], Values(args, keys[i]))
  {
    assert keys[..i + 1][..i] == keys[..i];
  }

  lemma {:induction false} FlagsForAppend(ks1: seq<string>, ks2: seq<string>, args: ArgMap)
    ensures FlagsFor(ks1 + ks2, args) == FlagsFor(ks1, args) + FlagsFor(ks2, args)
    decreases |ks2|
  {
    if ks2 == [] {
      assert ks1 + ks2 == ks1;
    } else {
      var init, last := ks2[..|ks2| - 1], ks2[|ks2| - 1];
      var all := ks1 + ks2;
      assert all[..|all| - 1] == ks1 + init;
      assert all[|all| - 1] == last;
      FlagsForAppend(ks1, init, args);
      calc {
        FlagsFor(all, args);
        FlagsFor(ks1 + init, args) + KeyFlags(last, Values(args, last));
        FlagsFor(ks1, args) + FlagsFor(init, args) + KeyFlags(last, Values(args, last));
        FlagsFor(ks1, args) + FlagsFor(ks2, args);
      }
    }
  }

  /** The keys of the flags are sorted: `Flags` is the concatenation over any sorted enumeration of the keys. */
  lemma {:induction false} FlagsFollowSortedKeys(args: ArgMap, ks: seq<string>)
    requires Sorted(ks) && multiset(ks) == multiset(args.Keys)
    ensures forall k :: k in ks ==> k in args
    ensures Flags(args) == FlagsFor(ks, args)
  {
    MultisetMembers(ks, args.Keys);
    SortedUnique(ks, SortedKeys(args));
  }

  /** No arguments, no flags. */
  lemma {:induction false} FlagsOfEmpty()
    ensures Flags(map[]) == []
  {
    assert SortedKeys(map[]) == [] by {
      assert multiset(SortedKeys(map[])) == multiset{};
    }
  }

  /** Every stored value appears as its `--key=value` flag. */
  lemma {:induction false} FlagsForContains(ks: seq<string>, args: ArgMap, k: string, j: int)
    requires forall x :: x in ks ==> x in args
    requires k in ks && 0 <= j < |args[k]|
    ensures Flag(k, args[k][j]) in FlagsFor(ks, args)
    decreases |ks|
  {
    var last := ks[|ks| - 1];
    if k == last {
      assert KeyFlags(k, args[k])[j] == Flag(k, args[k][j]);
    } else {
      assert k in ks[..|ks| - 1] by {
        var i :| 0 <= i < |ks| && ks[i] == k;
        assert ks[..|ks| - 1][i] == k;
      }
      FlagsForContains(ks[..|ks| - 1], args, k, j);
    }
  }

  /** Every flag is `--key=value` for a stored value of that key. */
  lemma {:induction false} FlagsForMembers(ks: seq<string>, args: ArgMap, t: string)
    requires forall x :: x in ks ==> x in args
    requires t in FlagsFor(ks, args)
    ensures exists k, v :: k in args && v in args[k] && t == Flag(k, v)
    decreases |ks|
  {
    var last := ks[|ks| - 1];
    var prefix := FlagsFor(ks[..|ks| - 1], args);
    if t in prefix {
      FlagsForMembers(ks[..|ks| - 1], args, t);
    } else {
      var i :| 0 <= i < |KeyFlags(last, args[last])| && KeyFlags(last, args[last])[i] == t;
      assert args[last][i] in args[last];
    }
  }

  /** The flags are exactly the `--key=value` tokens of the stored values. */
  lemma {:induction false} FlagsAreTheTokens(args: ArgMap)
    ensures forall k, j :: k in args && 0 <= j < |args[k]| ==> Flag(k, args[k][j]) in Flags(args)
    ensures forall t :: t in Flags(args) ==> exists k, v :: k in args && v in args[k] && t == Flag(k, v)
  {
    var ks := SortedKeys(args);
    forall k, j | k in args && 0 <= j < |args[k]| ensures Flag(k, args[k][j]) in Flags(args) {
      FlagsForContains(ks, args, k, j);
    }
    forall t | t in Flags(args) ensures exists k, v :: k in args && v in args[k] && t == Flag(k, v) {
      FlagsForMembers(ks, args, t);
    }
  }

  /** The number of values stored under the keys `ks`. */
  function ValueCount(ks: seq<string>, args: ArgMap): nat
    decreases |ks|
  {
    if ks == [] then 0 else |Values(args, ks[0])| + ValueCount(ks[1..], args)
  }

  lemma {:induction false} ValueCountAppend(ks1: seq<string>, ks2: seq<string>, args: ArgMap)
    ensures ValueCount(ks1 + ks2, args) == ValueCount(ks1, args) + ValueCount(ks2, args)
    decreases |ks1|
  {
    if ks1 != [] {
      assert (ks1 + ks2)[1..] == ks1[1..] + ks2;
      ValueCountAppend(ks1[1..], ks2, args);
    } else {
      assert ks1 + ks2 == ks2;
    }
  }

  /** Taking one key out of the sequence takes its values out of the count. */
  lemma {:induction false} ValueCountRemove(ks: seq<string>, i: int, args: ArgMap)
    requires 0 <= i < |ks|
    ensures ValueCount(ks, args) == |Values(args, ks[i])| + ValueCount(ks[..i] + ks[i + 1..], args)
  {
    var rest := [ks[i]] + ks[i + 1..];
    assert ks == ks[..i] + rest;
    ValueCountAppend(ks[..i], rest, args);
    ValueCountAppend(ks[..i], ks[i + 1..], args);
    assert rest[1..] == ks[i + 1..];
  }

  lemma {:induction false} RemoveMultiset(s: seq<string>, i: int)
    requires 0 <= i < |s|
    ensures multiset(s[..i] + s[i + 1..]) == multiset(s) - multiset{s[i]}
  {
    assert s == s[..i] + [s[i]] + s[i + 1..];
  }

  /** The count does not depend on the order of the keys. */
  lemma {:induction false} ValueCountPermutation(ks1: seq<string>, ks2: seq<string>, args: ArgMap)
    requires multiset(ks1) == multiset(ks2)
    ensures ValueCount(ks1, args) == ValueCount(ks2, args)
    decreases |ks1|
  {
    if ks1 == [] {
      assert |ks2| == |multiset(ks2)| == 0;
    } else {
      var a := ks1[0];
      assert a in multiset(ks2) by { assert a in multiset(ks1); }
      var i :| 0 <= i < |ks2| && ks2[i] == a;
      ValueCountRemove(ks2, i, args);
      RemoveMultiset(ks2, i);
      TailMultiset(ks1);
      ValueCountPermutation(ks1[1..], ks2[..i] + ks2[i + 1..], args);
    }
  }

  /** The number of values stored in `args`, over all its keys. */
  ghost function TotalValues(args: ArgMap): nat {
    ValueCount(SetToSeq(args.Keys), args)
  }

  lemma {:induction false} FlagsForLength(ks: seq<string>, args: ArgMap)
    ensures |FlagsFor(ks, args)| == ValueCount(ks, args)
    decreases |ks|
  {
    if ks != [] {
      var init := ks[..|ks| - 1];
      var last := ks[|ks| - 1];
      FlagsForLength(init, args);
      assert ks == init + [last];
      ValueCountAppend(init, [last], args);
      assert ValueCount([last], args) == |Values(args, last)| by {
        assert [last][1..] == [];
      }
    }
  }

  /** There are as many flags as stored values. */
  lemma {:induction false} FlagsLength(args: ArgMap)
    ensures |Flags(args)| == TotalValues(args)
  {
    FlagsForLength(SortedKeys(args), args);
    ValueCountPermutation(SortedKeys(args), SetToSeq(args.Keys), args);
  }

  // ---------------------------------------------------------------------
  // Continuation-line joining
  // ---------------------------------------------------------------------

  /**
   * The closure returned by `times(s, t)`: its captured counter `t` is the
   * mutable field; `t0` and `calls` are the ghost record of its history.
   */
  class Countdown {
    const s: string
    var t: int
    ghost const t0: int
    ghost var calls: nat

    ghost predicate Valid()
      reads this
    {
      t == if t0 <= 0 then t0 else if calls <= t0 then t0 - calls else 0
    }

    /** `times(s, t)`. */
    constructor (s: string, t: int)
      ensures Valid() && this.s == s && t0 == t && calls == 0
    {
      this.s := s;
      this.t := t;
      t0 := t;
      calls := 0;
    }

    /** One call of the closure: `s` on exactly the first `t0` calls, `""` afterwards. */
    method Next() returns (r: string)
      requires Valid()
      modifies this
      ensures Valid() && calls == old(calls) + 1
      ensures r == if old(calls) < t0 then s else ""
    {
      calls := calls + 1;
      if t > 0 {
        t := t - 1;
        return s;
      }
      return "";
    }
  }

  /** The separator between flags: a space, a backslash and a newline. */
  const ContinuationSeparator: string := " \\\n"

  /** `stringSliceToNewLinedString`: each flag followed by what the countdown yields. */
  method StringSliceToNewLinedString(flags: seq<string>) returns (blob: string)
    ensures blob == Join(flags, ContinuationSeparator)
  {
    var newLiner := new Countdown(ContinuationSeparator, |flags| - 1);
    blob := "";
    for i := 0 to |flags|
      invariant newLiner.Valid() && newLiner.calls == i
      invariant newLiner.s == ContinuationSeparator && newLiner.t0 == |flags| - 1
      invariant blob == Join(flags[..i], ContinuationSeparator)
                        + (if 0 < i < |flags| then ContinuationSeparator else "")
    {
      if i > 0 {
        assert flags[..i + 1] == flags[..i] + [flags[i]];
        JoinSnoc(flags[..i], flags[i], ContinuationSeparator);
      } else {
        assert flags[..1] == [flags[0]];
      }
      blob := blob + flags[i];
      var sep := newLiner.Next();
      blob := blob + sep;
    }
    assert flags[..|flags|] == flags;
  }

  /** The joined flags: empty for no flags, and no separator after the last one. */
  lemma {:induction false} JoinedFlagsShape(flags: seq<string>)
    ensures flags == [] ==> Join(flags, ContinuationSeparator) == ""
    ensures flags != [] ==>
              Join(flags, ContinuationSeparator) ==
              Join(flags[..|flags| - 1], ContinuationSeparator)
              + (if |flags| > 1 then ContinuationSeparator else "") + flags[|flags| - 1]
  {
    if |flags| > 1 {
      assert flags == flags[..|flags| - 1] + [flags[|flags| - 1]];
      JoinSnoc(flags[..|flags| - 1], flags[|flags| - 1], ContinuationSeparator);
    }
  }

  // ---------------------------------------------------------------------
  // `getServerArguments` as written
  // ---------------------------------------------------------------------

  datatype Panic =
    | IndexOutOfRange     // `escapedArgsSlice[i]` on a slice made with length 0
    | AssignmentToNilMap  // `args[argName]` on the never-allocated `args`

  datatype Outcome = Returned(result: Result<ArgMap, ExtractError>) | Panicked(panic: Panic)

  /**
   * The extraction exactly as written, visiting the entries in `order`:
   * the first entry visited either aborts the extraction as malformed or
   * panics, because `escapedArgsSlice` has length 0 and `args` is nil.
   */
  function GetServerArgumentsAsWritten(config: Config, order: seq<string>): (o: Outcome)
    requires ServerArgumentsField in config && config[ServerArgumentsField].Object? ==>
               forall k :: k in order <==> k in config[ServerArgumentsField].fields
    ensures o.Returned? && o.result.Success? ==> o.result.value == map[]
  {
    if ServerArgumentsField !in config || config[ServerArgumentsField].Null? then Returned(Success(map[]))
    else if !config[ServerArgumentsField].Object? then
      Returned(Failure(UnmarshalFailed(config[ServerArgumentsField])))
    else if order == [] then Returned(Success(map[]))
    else
      var fields := config[ServerArgumentsField].fields;
      var argName := order[0];
      match RawArgument(fields[argName])
      case None => Returned(Failure(IncorrectValue(argName, fields[argName])))
      case Some(argsSlice) => if |argsSlice| > 0 then Panicked(IndexOutOfRange) else Panicked(AssignmentToNilMap)
  }

  /** As written, no configuration with an entry is ever extracted. */
  lemma {:induction false} AsWrittenNeverExtractsAnEntry(config: Config, order: seq<string>)
    requires ServerArgumentsField in config && config[ServerArgumentsField].Object?
    requires forall k :: k in order <==> k in config[ServerArgumentsField].fields
    requires config[ServerArgumentsField].fields != map[]
    ensures !(GetServerArgumentsAsWritten(config, order).Returned?
              && GetServerArgumentsAsWritten(config, order).result.Success?)
  {
    var k :| k in config[ServerArgumentsField].fields;
    assert k in order;
  }

  /** `{"serverArguments": {"scope": ["a"]}}` panics on the zero-length slice. */
  lemma {:induction false} IndexOutOfRangeExample()
    ensures GetServerArgumentsAsWritten(
              map[ServerArgumentsField := Object(map["scope" := StrList(["a"])])], ["scope"])
            == Panicked(IndexOutOfRange)
  {
    var v := StrList(["a"]);
    assert RawArgument(v) == Some(["a"]);
  }

  /** `{"serverArguments": {"scope": []}}` panics on the nil map. */
  lemma {:induction false} NilMapExample()
    ensures GetServerArgumentsAsWritten(
              map[ServerArgumentsField := Object(map["scope" := StrList([])])], ["scope"])
            == Panicked(AssignmentToNilMap)
  {
    var v := StrList([]);
    assert RawArgument(v) == Some([]);
  }
}
