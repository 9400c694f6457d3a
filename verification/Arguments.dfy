/**
 Command-line arguments of the legacy agent: the scan that collects configuration flags, the search
 for the configuration path, and the rewriting of `--playbook-enabled <bool>` to one argument.
 */
module Arguments {
  import opened Strings

  /**
   What the scan takes from elsewhere: the known flags with their canonical names, the flags that take
   a value, lower case, the two boolean words in any case, and what parses as a number.
   */
  datatype Grammar = Grammar(
    known: map<string, string>, takesValue: string -> bool,
    lower: string -> string, boolWord: string -> bool, isNumber: string -> bool
  )

  const PLAYBOOK := "--playbook-enabled"
  const CONFIG := "--config"

  /** A boolean word does not start with a dash, a number not with two. */
  ghost predicate Plain(g: Grammar) {
    && (forall s :: g.boolWord(s) ==> !Dashed(s))
    && (forall s :: g.isNumber(s) ==> !("--" <= s))
  }

  predicate Dashed(s: string) {
    "-" <= s
  }

  predicate IsBool(g: Grammar, s: string) {
    g.boolWord(Trim(s))
  }

  predicate CanBeValue(g: Grammar, s: string) {
    var t := Trim(s);
    t == "" || !Dashed(t) || g.isNumber(t)
  }

  function StripDashes(s: string): string {
    if Dashed(s) then StripDashes(s[1..]) else s
  }

  /** The position of the first `=`, or the length when there is none. */
  function EqualsAt(s: string): (i: nat)
    ensures i <= |s|
  {
    if s == "" || s[0] == '=' then 0 else 1 + EqualsAt(s[1..])
  }

  predicate Switch(name: string) {
    || name == "require-api-token" || name == "leader-election" || name == "enable-aws-eks" || name == "grpc-reflection"
    || name == "playbook-enabled" || name == "event-driven-scanning"
  }

  predicate Repeatable(name: string) {
    || name == "llm-headers" || name == "playbook-allowed-actions" || name == "playbook-allowed-namespaces"
    || name == "playbook-allowed-kinds"
  }

  type Flags = map<string, string>

  function SetFlag(g: Grammar, flags: Flags, name: string, value: string): Flags {
    if name !in g.known then flags
    else
      var c := g.known[name];
      if Repeatable(c) && c in flags && flags[c] != "" && value != "" then flags[c := flags[c] + "," + value]
      else flags[c := value]
  }

  /** What the first argument says: nothing, or a flag with its value, using up one argument or two. */
  datatype Reading = Nothing | Flag(name: string, value: string, used: nat)

  function ReadFlag(g: Grammar, name: string, args: seq<string>): (r: Reading)
    requires args != []
    ensures r.Flag? ==> 1 <= r.used <= |args|
  {
    if name == "playbook-enabled" && |args| > 1 && IsBool(g, args[1]) then Flag(name, g.lower(Trim(args[1])), 2)
    else if |args| > 1 && g.takesValue(name) && CanBeValue(g, args[1]) then Flag(name, args[1], 2)
    else if Switch(name) then Flag(name, "true", 1)
    else Nothing
  }

  function ReadFirst(g: Grammar, args: seq<string>): (r: Reading)
    requires args != []
    ensures r.Flag? ==> 1 <= r.used <= |args|
  {
    var name := StripDashes(args[0]);
    var at := EqualsAt(name);
    if !Dashed(args[0]) then Nothing
    else if at < |name| then Flag(name[..at], name[at + 1..], 1)
    else ReadFlag(g, name, args)
  }

  /** The flags in some arguments, added to those already found. */
  function Scan(g: Grammar, args: seq<string>, flags: Flags): Flags
    decreases |args|
  {
    if args == [] then flags
    else
      match ReadFirst(g, args)
      case Nothing => Scan(g, args[1..], flags)
      case Flag(name, value, used) => Scan(g, args[used..], SetFlag(g, flags, name, value))
  }

  /** The configuration path: what follows the first `--config`, in either spelling. */
  function ConfigPath(args: seq<string>): string {
    if args == [] then ""
    else if args[0] == CONFIG && |args| > 1 then args[1]
    else if "--config=" <= args[0] then args[0][|"--config="|..]
    else ConfigPath(args[1..])
  }

  predicate Joins(g: Grammar, args: seq<string>) {
    |args| > 1 && args[0] == PLAYBOOK && IsBool(g, args[1])
  }

  function Joined(g: Grammar, value: string): string {
    PLAYBOOK + "=" + g.lower(Trim(value))
  }

  function Normalize(g: Grammar, args: seq<string>): seq<string>
    decreases |args|
  {
    if args == [] then []
    else if Joins(g, args) then [Joined(g, args[1])] + Normalize(g, args[2..])
    else [args[0]] + Normalize(g, args[1..])
  }

  // ---------------------------------------------------------------- the procedures

  method ConfigFlags(g: Grammar, args: seq<string>) returns (result: Flags)
    ensures result == Scan(g, args, map[])
  {
    result := map[];
    var index := 0;
    while index < |args|
      invariant 0 <= index <= |args|
      invariant Scan(g, args[index..], result) == Scan(g, args, map[])
    {
      var arg := args[index];
      assert args[index..][1..] == args[index + 1..];
      assert index + 1 < |args| ==> args[index..][1] == args[index + 1] && args[index..][2..] == args[index + 2..];
      index := index + 1;
      if !Dashed(arg) {
        continue;
      }
      var name := StripDashes(arg);
      var value := "";
      var equals := EqualsAt(name);
      if equals < |name| {
        value := name[equals + 1..];
        name := name[..equals];
      } else if name == "playbook-enabled" && index < |args| && IsBool(g, args[index]) {
        value := g.lower(Trim(args[index]));
        index := index + 1;
      } else if index < |args| && g.takesValue(name) && CanBeValue(g, args[index]) {
        value := args[index];
        index := index + 1;
      } else if Switch(name) {
        value := "true";
      } else {
        continue;
      }
      if name in g.known {
        var canonical := g.known[name];
        if Repeatable(canonical) && canonical in result && result[canonical] != "" && value != "" {
          result := result[canonical := result[canonical] + "," + value];
        } else {
          result := result[canonical := value];
        }
      }
    }
  }

  lemma StepOver(g: Grammar, args: seq<string>, i: nat)
    requires i < |args| && !Joins(g, args[i..])
    ensures args[..i + 1] + Normalize(g, args[i + 1..]) == args[..i] + Normalize(g, args[i..])
  {
    var rest := args[i..];
    assert rest[1..] == args[i + 1..];
    assert Normalize(g, rest) == [args[i]] + Normalize(g, rest[1..]);
    assert args[..i + 1] == args[..i] + [args[i]];
  }

  lemma StepJoin(g: Grammar, args: seq<string>, i: nat)
    requires i + 1 < |args| && Joins(g, args[i..])
    ensures var next := args[..i] + [Joined(g, args[i + 1])] + args[i + 2..];
            next[..i + 1] + Normalize(g, next[i + 1..]) == args[..i] + Normalize(g, args[i..])
  {
    var rest := args[i..];
    var next := args[..i] + [Joined(g, args[i + 1])] + args[i + 2..];
    assert rest[2..] == args[i + 2..] == next[i + 1..];
    assert Normalize(g, rest) == [Joined(g, args[i + 1])] + Normalize(g, rest[2..]);
    assert next[..i + 1] == args[..i] + [Joined(g, args[i + 1])];
  }

  /** The rewriting, in place on a copy: the joined value is cut out and the scan goes on behind it. */
  method NormalizeArgs(g: Grammar, args: seq<string>) returns (normalized: seq<string>)
    ensures normalized == Normalize(g, args)
  {
    normalized := args;
    var index := 0;
    while index + 1 < |normalized|
      invariant 0 <= index <= |normalized|
      invariant normalized[..index] + Normalize(g, normalized[index..]) == Normalize(g, args)
      decreases |normalized| - index
    {
      if normalized[index] != PLAYBOOK || !IsBool(g, normalized[index + 1]) {
        StepOver(g, normalized, index);
        index := index + 1;
        continue;
      }
      StepJoin(g, normalized, index);
      var joined := normalized[index] + "=" + g.lower(Trim(normalized[index + 1]));
      normalized := normalized[..index] + [joined] + normalized[index + 2..];
      index := index + 1;
    }
    LastStays(g, normalized[index..]);
    assert normalized == normalized[..index] + normalized[index..];
  }

  lemma LastStays(g: Grammar, args: seq<string>)
    requires |args| <= 1
    ensures Normalize(g, args) == args
  {
    if args != [] {
      assert Normalize(g, args[1..]) == [];
    }
  }

  // ---------------------------------------------------------------- dashes

  lemma {:induction false} TrimRightKeeps(s: string, head: string)
    requires head <= s && (forall i :: 0 <= i < |head| ==> head[i] == '-')
    ensures head <= TrimRight(s)
    decreases |s|
  {
    if s != "" && Space(s[|s| - 1]) {
      assert forall i :: 0 <= i < |head| ==> s[i] == '-';
      TrimRightKeeps(s[..|s| - 1], head);
    }
  }

  /** Trimming keeps leading dashes, so a dashed argument is no boolean, and a twice dashed one no value. */
  lemma DashesAreFlags(g: Grammar, s: string)
    requires Plain(g) && Dashed(s)
    ensures !IsBool(g, s) && ("--" <= s ==> !CanBeValue(g, s))
  {
    assert TrimLeft(s) == s;
    TrimRightKeeps(s, "-");
    if "--" <= s {
      TrimRightKeeps(s, "--");
    }
  }

  lemma StripTwo(rest: string)
    requires !Dashed(rest)
    ensures StripDashes("--" + rest) == rest
  {
    assert ("--" + rest)[1..] == "-" + rest && Dashed("-" + rest);
    assert ("-" + rest)[1..] == rest;
    assert StripDashes("-" + rest) == StripDashes(rest) == rest;
  }

  lemma {:induction false} FirstEquals(name: string, value: string)
    requires forall i :: 0 <= i < |name| ==> name[i] != '='
    ensures EqualsAt(name + "=" + value) == |name| && EqualsAt(name) == |name|
  {
    var s := name + "=" + value;
    if name == "" {
      assert s[0] == '=';
    } else {
      assert s[1..] == name[1..] + "=" + value;
      FirstEquals(name[1..], value);
    }
  }

  /** A flag joined to its value reads back as the flag and the value. */
  lemma JoinReads(name: string, value: string)
    requires name != "" && !Dashed(name) && forall i :: 0 <= i < |name| ==> name[i] != '='
    ensures var read := StripDashes("--" + name + "=" + value);
            var at := EqualsAt(read);
            at < |read| && read[..at] == name && read[at + 1..] == value
  {
    var joined := name + "=" + value;
    assert "--" + name + "=" + value == "--" + joined;
    assert joined[0] == name[0];
    StripTwo(joined);
    FirstEquals(name, value);
  }

  lemma JoinedReads(g: Grammar, value: string)
    ensures var read := StripDashes(Joined(g, value));
            var at := EqualsAt(read);
            at < |read| && read[..at] == "playbook-enabled" && read[at + 1..] == g.lower(Trim(value))
  {
    var name := "playbook-enabled";
    assert name[0] == 'p';
    assert PLAYBOOK == "--" + name;
    JoinReads(name, g.lower(Trim(value)));
  }

  lemma JoinedIsItself(g: Grammar, value: string)
    ensures var arg := Joined(g, value); "--" <= arg && arg != PLAYBOOK && arg != CONFIG && !("--config=" <= arg)
  {
    var arg := Joined(g, value);
    assert arg[2] == PLAYBOOK[2] == 'p';
    assert |arg| > |PLAYBOOK|;
  }

  lemma PlaybookReads()
    ensures StripDashes(PLAYBOOK) == "playbook-enabled" && EqualsAt("playbook-enabled") == |"playbook-enabled"|
  {
    var name := "playbook-enabled";
    assert name[0] == 'p';
    assert PLAYBOOK == "--" + name;
    StripTwo(name);
    FirstEquals(name, "");
  }

  // ---------------------------------------------------------------- what rewriting keeps

  /** The first argument after rewriting: the same, or the joined one in place of the flag. */
  lemma FirstAfter(g: Grammar, args: seq<string>)
    ensures var n := Normalize(g, args);
            && (n == [] <==> args == [])
            && (args != [] ==>
                  if Joins(g, args) then n[0] == Joined(g, args[1]) && n[1..] == Normalize(g, args[2..])
                  else n[0] == args[0] && n[1..] == Normalize(g, args[1..]))
  {
  }

  /** To the argument before it, the first argument looks the same after rewriting. */
  lemma LooksTheSame(g: Grammar, args: seq<string>)
    requires Plain(g) && args != []
    ensures var n := Normalize(g, args);
            && n != []
            && IsBool(g, n[0]) == IsBool(g, args[0])
            && CanBeValue(g, n[0]) == CanBeValue(g, args[0])
            && (IsBool(g, args[0]) || CanBeValue(g, args[0]) ==> n[0] == args[0] && n[1..] == Normalize(g, args[1..]))
  {
    FirstAfter(g, args);
    if Joins(g, args) {
      JoinedIsItself(g, args[1]);
      DashesAreFlags(g, Joined(g, args[1]));
      DashesAreFlags(g, PLAYBOOK);
    }
  }

  /** A flag and its value read the same apart and joined. */
  lemma JoinedReadsAlike(g: Grammar, args: seq<string>, rest: seq<string>)
    requires Joins(g, args)
    ensures var value := g.lower(Trim(args[1]));
            && ReadFirst(g, args) == Flag("playbook-enabled", value, 2)
            && ReadFirst(g, [Joined(g, args[1])] + rest) == Flag("playbook-enabled", value, 1)
  {
    PlaybookReads();
    JoinedReads(g, args[1]);
    JoinedIsItself(g, args[1]);
    assert Dashed(PLAYBOOK);
  }

  /** An argument that stays reads the same, and what it leaves is rewritten as before. */
  lemma KeptReadsAlike(g: Grammar, args: seq<string>)
    requires Plain(g) && args != [] && !Joins(g, args)
    ensures var n := Normalize(g, args);
            && n != []
            && ReadFirst(g, n) == ReadFirst(g, args)
            && n[1..] == Normalize(g, args[1..])
            && (ReadFirst(g, args).Flag? ==> n[ReadFirst(g, args).used..] == Normalize(g, args[ReadFirst(g, args).used..]))
  {
    var n := Normalize(g, args);
    FirstAfter(g, args);
    FirstAfter(g, args[1..]);
    if |args| > 1 {
      LooksTheSame(g, args[1..]);
      assert args[1..][0] == args[1] && args[1..][1..] == args[2..] && n[1..][0] == n[1] && n[1..][1..] == n[2..];
    }
  }

  /** Rewriting the arguments changes no flag. */
  lemma {:induction false} RewritingKeepsFlags(g: Grammar, args: seq<string>, flags: Flags)
    requires Plain(g)
    ensures Scan(g, Normalize(g, args), flags) == Scan(g, args, flags)
    decreases |args|
  {
    if args != [] {
      if Joins(g, args) {
        var rest := Normalize(g, args[2..]);
        JoinedReadsAlike(g, args, rest);
        assert ([Joined(g, args[1])] + rest)[1..] == rest;
        RewritingKeepsFlags(g, args[2..], SetFlag(g, flags, "playbook-enabled", g.lower(Trim(args[1]))));
      } else {
        KeptReadsAlike(g, args);
        match ReadFirst(g, args)
        case Nothing => RewritingKeepsFlags(g, args[1..], flags);
        case Flag(name, value, used) => RewritingKeepsFlags(g, args[used..], SetFlag(g, flags, name, value));
      }
    }
  }

  /** Rewriting twice is rewriting once. */
  lemma {:induction false} RewritingIsIdempotent(g: Grammar, args: seq<string>)
    requires Plain(g)
    ensures Normalize(g, Normalize(g, args)) == Normalize(g, args)
    decreases |args|
  {
    if args != [] {
      var n := Normalize(g, args);
      FirstAfter(g, args);
      if Joins(g, args) {
        JoinedIsItself(g, args[1]);
        RewritingIsIdempotent(g, args[2..]);
      } else {
        if |args| > 1 {
          LooksTheSame(g, args[1..]);
          assert n[1] == n[1..][0];
        }
        RewritingIsIdempotent(g, args[1..]);
      }
    }
  }

  /** The path named by the first `--config` is itself a flag that rewriting joins to its value. */
  predicate PathIsJoined(g: Grammar, args: seq<string>) {
    args != [] &&
    if args[0] == CONFIG && |args| > 1 then Joins(g, args[1..])
    else !("--config=" <= args[0]) && PathIsJoined(g, args[1..])
  }

  /** Rewriting keeps the configuration path exactly when the path is not such a flag. */
  lemma {:induction false} RewritingKeepsPathExactly(g: Grammar, args: seq<string>)
    requires Plain(g)
    ensures ConfigPath(Normalize(g, args)) == ConfigPath(args) <==> !PathIsJoined(g, args)
    decreases |args|
  {
    if args != [] {
      var n := Normalize(g, args);
      FirstAfter(g, args);
      FirstAfter(g, args[1..]);
      if Joins(g, args) {
        JoinedIsItself(g, args[1]);
        assert CONFIG != PLAYBOOK && !("--config=" <= PLAYBOOK) by {
          assert PLAYBOOK[2] == 'p';
        }
        BoolIsNoPath(g, args[1..]);
        assert args[1..][1..] == args[2..];
        RewritingKeepsPathExactly(g, args[2..]);
      } else if args[0] == CONFIG && |args| > 1 {
        assert n[1] == n[1..][0];
        if Joins(g, args[1..]) {
          JoinedIsItself(g, args[2]);
        }
      } else if !("--config=" <= args[0]) {
        RewritingKeepsPathExactly(g, args[1..]);
      }
    }
  }

  /** The path does change when `--config` is given that flag for its value. */
  lemma PathCanChange(g: Grammar)
    requires Plain(g) && IsBool(g, "true")
    ensures var args := [CONFIG, PLAYBOOK, "true"]; ConfigPath(Normalize(g, args)) != ConfigPath(args)
  {
    RewritingKeepsPathExactly(g, [CONFIG, PLAYBOOK, "true"]);
    assert [CONFIG, PLAYBOOK, "true"][1..] == [PLAYBOOK, "true"];
  }

  lemma BoolIsNoPath(g: Grammar, args: seq<string>)
    requires Plain(g) && args != [] && IsBool(g, args[0])
    ensures ConfigPath(args) == ConfigPath(args[1..]) && PathIsJoined(g, args) == PathIsJoined(g, args[1..])
  {
    if Dashed(args[0]) {
      DashesAreFlags(g, args[0]);
    }
  }

  // ---------------------------------------------------------------- what is read, said outright

  function Dashes(n: nat): string {
    if n == 0 then "" else "-" + Dashes(n - 1)
  }

  predicate PlainName(name: string) {
    !Dashed(name) && forall i :: 0 <= i < |name| ==> name[i] != '='
  }

  lemma {:induction false} DashesStrip(n: nat, rest: string)
    requires !Dashed(rest)
    ensures StripDashes(Dashes(n) + rest) == rest && (n > 0 ==> Dashed(Dashes(n) + rest))
  {
    if n == 0 {
      assert Dashes(0) + rest == rest;
    } else {
      assert (Dashes(n) + rest)[1..] == Dashes(n - 1) + rest;
      DashesStrip(n - 1, rest);
    }
  }

  /** With any number of dashes, a name, an equals sign and a value read as that flag with that value. */
  lemma ReadsJoined(g: Grammar, n: nat, name: string, value: string, rest: seq<string>)
    requires n > 0 && PlainName(name)
    ensures ReadFirst(g, [Dashes(n) + name + "=" + value] + rest) == Flag(name, value, 1)
  {
    var joined := name + "=" + value;
    assert Dashes(n) + name + "=" + value == Dashes(n) + joined;
    assert !Dashed(joined) by {
      assert joined[0] == if name == "" then '=' else name[0];
    }
    DashesStrip(n, joined);
    FirstEquals(name, value);
    assert joined[..|name|] == name && joined[|name| + 1..] == value;
  }

  /** A name alone takes the next argument if it may, and otherwise is a switch or nothing. */
  lemma ReadsApart(g: Grammar, n: nat, name: string, rest: seq<string>)
    requires n > 0 && PlainName(name)
    ensures var r := ReadFirst(g, [Dashes(n) + name] + rest);
            var switches := {"require-api-token", "leader-election", "enable-aws-eks", "grpc-reflection", "playbook-enabled",
                             "event-driven-scanning"};
            var worded := name == "playbook-enabled" && rest != [] && g.boolWord(Trim(rest[0]));
            var valued := rest != [] && g.takesValue(name)
                          && (Trim(rest[0]) == "" || Trim(rest[0])[0] != '-' || g.isNumber(Trim(rest[0])));
            && (worded ==> r == Flag(name, g.lower(Trim(rest[0])), 2))
            && (!worded && valued ==> r == Flag(name, rest[0], 2))
            && (!worded && !valued && name in switches ==> r == Flag(name, "true", 1))
            && (!worded && !valued && name !in switches ==> r == Nothing)
  {
    DashesStrip(n, name);
    FirstEquals(name, "");
    var args := [Dashes(n) + name] + rest;
    assert rest != [] ==> args[1] == rest[0];
  }

  /** An argument without a dash says nothing. */
  lemma ReadsNothing(g: Grammar, args: seq<string>)
    requires args != [] && (args[0] == "" || args[0][0] != '-')
    ensures ReadFirst(g, args) == Nothing
  {
  }

  datatype Said = Said(name: string, value: string)

  /** The flags the arguments say, in order. */
  function Sayings(g: Grammar, args: seq<string>): seq<Said>
    decreases |args|
  {
    if args == [] then []
    else
      match ReadFirst(g, args)
      case Nothing => Sayings(g, args[1..])
      case Flag(name, value, used) => [Said(name, value)] + Sayings(g, args[used..])
  }

  /** The values said for a canonical flag, in order. */
  function ValuesFor(g: Grammar, said: seq<Said>, c: string): seq<string> {
    if said == [] then []
    else (if said[0].name in g.known && g.known[said[0].name] == c then [said[0].value] else []) + ValuesFor(g, said[1..], c)
  }

  function Commas(values: seq<string>): string
    requires values != []
  {
    if |values| == 1 then values[0] else Commas(values[..|values| - 1]) + "," + values[|values| - 1]
  }

  const REPEATABLE := {"llm-headers", "playbook-allowed-actions", "playbook-allowed-namespaces", "playbook-allowed-kinds"}

  /** These are the values from `k` on, none of them empty, and what comes before, if anything, is. */
  predicate LastRun(values: seq<string>, k: int) {
    && 0 <= k < |values| && (k > 0 ==> values[k - 1] == "")
    && forall i :: k <= i < |values| ==> values[i] != ""
  }

  /** What a flag comes to: the last value, or for a repeatable one the values since the last empty one. */
  ghost predicate ComesTo(values: seq<string>, c: string, value: string) {
    values != [] &&
    var last := values[|values| - 1];
    if c in REPEATABLE && last != "" then exists k :: LastRun(values, k) && value == Commas(values[k..]) else value == last
  }

  lemma ComesToNext(values: seq<string>, c: string, former: string, value: string)
    requires ComesTo(values, c, former)
    ensures ComesTo(values + [value], c, if Repeatable(c) && former != "" && value != "" then former + "," + value else value)
  {
    var all := values + [value];
    if Repeatable(c) && value != "" {
      if values[|values| - 1] != "" {
        var k :| LastRun(values, k) && former == Commas(values[k..]);
        CommasNotEmpty(values[k..]);
        assert all[k..][..|all[k..]| - 1] == values[k..];
        assert LastRun(all, k) && Commas(all[k..]) == former + "," + value;
      } else {
        assert all[|values|..] == [value];
        assert LastRun(all, |values|);
      }
    }
  }

  lemma {:induction false} CommasNotEmpty(values: seq<string>)
    requires values != [] && forall i :: 0 <= i < |values| ==> values[i] != ""
    ensures Commas(values) != ""
  {
  }

  lemma ComesToFirst(c: string, value: string)
    ensures ComesTo([value], c, value)
  {
    if value != "" {
      assert LastRun([value], 0) && [value][0..] == [value];
    }
  }

  /** The flags agree with what has been said so far. */
  ghost predicate Says(g: Grammar, flags: Flags, said: seq<Said>, c: string) {
    && (c in flags <==> ValuesFor(g, said, c) != [])
    && (c in flags ==> ComesTo(ValuesFor(g, said, c), c, flags[c]))
  }

  lemma {:induction false} ValuesSnoc(g: Grammar, said: seq<Said>, x: Said, c: string)
    ensures ValuesFor(g, said + [x], c) ==
              ValuesFor(g, said, c) + (if x.name in g.known && g.known[x.name] == c then [x.value] else [])
  {
    if said != [] {
      assert (said + [x])[1..] == said[1..] + [x];
      ValuesSnoc(g, said[1..], x, c);
    }
  }

  lemma SetSays(g: Grammar, flags: Flags, said: seq<Said>, x: Said, c: string)
    requires Says(g, flags, said, c)
    ensures Says(g, SetFlag(g, flags, x.name, x.value), said + [x], c)
  {
    ValuesSnoc(g, said, x, c);
    if x.name in g.known && g.known[x.name] == c {
      if c in flags {
        ComesToNext(ValuesFor(g, said, c), c, flags[c], x.value);
      } else {
        ComesToFirst(c, x.value);
        assert [] + [x.value] == [x.value];
      }
    } else {
      assert ValuesFor(g, said, c) + [] == ValuesFor(g, said, c);
    }
  }

  lemma {:induction false} ScanSays(g: Grammar, args: seq<string>, flags: Flags, said: seq<Said>, c: string)
    requires Says(g, flags, said, c)
    ensures Says(g, Scan(g, args, flags), said + Sayings(g, args), c)
    decreases |args|
  {
    if args == [] {
      assert said + [] == said;
    } else {
      match ReadFirst(g, args)
      case Nothing => ScanSays(g, args[1..], flags, said, c);
      case Flag(name, value, used) =>
        SetSays(g, flags, said, Said(name, value), c);
        ScanSays(g, args[used..], SetFlag(g, flags, name, value), said + [Said(name, value)], c);
        assert said + [Said(name, value)] + Sayings(g, args[used..]) == said + ([Said(name, value)] + Sayings(g, args[used..]));
    }
  }

  /** A flag is set exactly when it is said, to the last value said or, if it is repeatable, to those since the last empty one. */
  lemma FlagsExactly(g: Grammar, args: seq<string>, c: string)
    ensures var flags, values := Scan(g, args, map[]), ValuesFor(g, Sayings(g, args), c);
            (c in flags <==> values != []) && (c in flags ==> ComesTo(values, c, flags[c]))
  {
    ScanSays(g, args, map[], [], c);
    assert [] + Sayings(g, args) == Sayings(g, args);
  }

  /** The first argument that names a configuration path. */
  predicate NamesPath(args: seq<string>, i: int) {
    && 0 <= i < |args| && ((args[i] == "--config" && i + 1 < |args|) || "--config=" <= args[i])
    && forall j :: 0 <= j < i ==> !(args[j] == "--config" && j + 1 < |args|) && !("--config=" <= args[j])
  }

  lemma NamesPathLater(args: seq<string>, i: int)
    requires args != [] && !(args[0] == "--config" && |args| > 1) && !("--config=" <= args[0])
    ensures NamesPath(args, i) <==> i > 0 && NamesPath(args[1..], i - 1)
  {
    var rest := args[1..];
    assert forall j :: 0 <= j < |rest| ==> rest[j] == args[j + 1];
    if NamesPath(args, i) {
      assert rest[i - 1] == args[i];
    }
    if i > 0 && NamesPath(rest, i - 1) {
      assert args[i] == rest[i - 1];
      assert forall j :: 0 < j < i ==> args[j] == rest[j - 1];
    }
  }

  /** The configuration path is what the first such argument names, if there is one. */
  lemma {:induction false} PathExactly(args: seq<string>, i: int)
    requires NamesPath(args, i)
    ensures ConfigPath(args) == if "--config=" <= args[i] then args[i][|"--config="|..] else args[i + 1]
  {
    if i > 0 {
      NamesPathLater(args, i);
      PathExactly(args[1..], i - 1);
    }
  }

  lemma {:induction false} NoPath(args: seq<string>)
    requires forall i :: !NamesPath(args, i)
    ensures ConfigPath(args) == ""
  {
    if args != [] {
      assert !NamesPath(args, 0);
      forall i
        ensures !NamesPath(args[1..], i)
      {
        NamesPathLater(args, i + 1);
      }
      NoPath(args[1..]);
    }
  }

  /** After rewriting no flag is followed by a boolean that could be joined to it. */
  lemma {:induction false} RewritingJoinsAll(g: Grammar, args: seq<string>, i: nat)
    requires Plain(g) && i + 1 < |Normalize(g, args)|
    ensures var n := Normalize(g, args); !(n[i] == "--playbook-enabled" && g.boolWord(Trim(n[i + 1])))
    decreases |args|
  {
    var n := Normalize(g, args);
    FirstAfter(g, args);
    if i > 0 {
      assert n[i] == n[1..][i - 1] && n[i + 1] == n[1..][i];
      RewritingJoinsAll(g, if Joins(g, args) then args[2..] else args[1..], i - 1);
    } else if Joins(g, args) {
      JoinedIsItself(g, args[1]);
    } else {
      LooksTheSame(g, args[1..]);
      assert n[1] == n[1..][0];
    }
  }
}
