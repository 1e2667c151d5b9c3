/** The command-binding layer: argument declarations, commands that carry
    their declarations, the scan that finds the commands of an instance, the
    construction of one sub-parser per command and the dispatch of a parse
    result to the selected command. */
module Decorators {
  import opened Values
  import opened Argparse

  /** The keyword arguments a command is called with. */
  type Kwargs = map<string, Value>

  /** The field every sub-parser sets to its own command name. */
  const Marker := "command"

  // ---------------------------------------------------------------------
  // Argument declarations
  // ---------------------------------------------------------------------

  /** One `command_arg(*tokens, **options)` declaration: the identifier
      tokens and keyword options later handed to add_argument. */
  datatype CommandArg = CommandArg(tokens: seq<string>, options: map<string, Value>) {

    /** The canonical argument name: the second token when there are two or
        more, the first otherwise, with one leading "--" removed. With no
        tokens at all, indexing the first token raises IndexError. */
    function GetName(): (r: Result<string>)
      ensures |tokens| == 0 ==> r == Err(IndexError)
      ensures |tokens| == 1 ==> r.Ok? && Unprefixed(tokens[0], r.value)
      ensures |tokens| >= 2 ==> r.Ok? && Unprefixed(tokens[1], r.value)
    {
      if |tokens| == 0 then Err(IndexError)
      else
        var name := if |tokens| > 1 then tokens[1] else tokens[0];
        if StartsWith(name, "--") then
          assert name == "--" + name[2..] by { assert name[..2] == "--"; }
          Ok(name[2..])
        else Ok(name)
    }
  }

  /** `name` is `token` with one leading "--" removed, or `token` itself
      when it has no such prefix. */
  predicate Unprefixed(token: string, name: string)
  {
    if StartsWith(token, "--") then token == "--" + name else token == name
  }

  /** The name is what remains of the chosen token after at most two
      leading characters are dropped: a suffix of it. */
  lemma NameIsSuffix(a: CommandArg)
    requires |a.tokens| > 0
    ensures var chosen := if |a.tokens| > 1 then a.tokens[1] else a.tokens[0];
            var name := a.GetName().value;
            |chosen| - 2 <= |name| <= |chosen| && chosen[|chosen| - |name|..] == name
  {
    var chosen := if |a.tokens| > 1 then a.tokens[1] else a.tokens[0];
    if StartsWith(chosen, "--") {
      assert chosen == "--" + a.GetName().value;
    }
  }

  /** A long flag loses exactly one "--", whatever follows it (so "----x"
      gives "--x"), both alone and after a short flag. */
  lemma LongFlagStripsOnce(short: string, name: string, options: map<string, Value>)
    ensures CommandArg(["--" + name], options).GetName() == Ok(name)
    ensures CommandArg([short, "--" + name], options).GetName() == Ok(name)
    ensures CommandArg([short, "--" + name, short], options).GetName() == Ok(name)
  {
    assert StartsWith("--" + name, "--");
  }

  /** A token without the "--" prefix, a positional name or a single-dash
      flag such as "-n", is the name unchanged. */
  lemma OtherTokensUnchanged(first: string, token: string, options: map<string, Value>)
    requires !StartsWith(token, "--")
    ensures CommandArg([token], options).GetName() == Ok(token)
    ensures CommandArg([first, token], options).GetName() == Ok(token)
  {
  }

  /** The canonical names of the declarations that have tokens. */
  ghost function DeclaredNames(specs: seq<CommandArg>): set<string>
  {
    set i | 0 <= i < |specs| && specs[i].GetName().Ok? :: specs[i].GetName().value
  }

  /** The registrations that registering `specs` in order produces. */
  function Registrations(specs: seq<CommandArg>): (regs: seq<Registration>)
    ensures |regs| == |specs|
    ensures forall i :: 0 <= i < |specs| ==> regs[i] == Registration(specs[i].tokens, specs[i].options)
  {
    if specs == [] then []
    else [Registration(specs[0].tokens, specs[0].options)] + Registrations(specs[1..])
  }

  lemma RegistrationsAppend(specs: seq<CommandArg>, x: CommandArg)
    ensures Registrations(specs + [x]) == Registrations(specs) + [Registration(x.tokens, x.options)]
  {
    var lhs, rhs := Registrations(specs + [x]), Registrations(specs) + [Registration(x.tokens, x.options)];
    assert |lhs| == |rhs|;
    forall i | 0 <= i < |lhs| ensures lhs[i] == rhs[i] {
      if i < |specs| { assert (specs + [x])[i] == specs[i]; }
    }
  }

  /** The fields of `r` among `names` that hold a truthy value. */
  function Selected(names: set<string>, r: ParseResult): Kwargs
  {
    map k | k in names && k in r && Truthy(r[k]) :: r[k]
  }

  lemma SelectedInsert(names: set<string>, n: string, r: ParseResult)
    ensures Selected(names + {n}, r) ==
            if n in r && Truthy(r[n]) then Selected(names, r)[n := r[n]] else Selected(names, r)
  {
  }

  lemma DeclaredNamesAppend(specs: seq<CommandArg>, x: CommandArg)
    requires x.tokens != []
    ensures DeclaredNames(specs + [x]) == DeclaredNames(specs) + {x.GetName().value}
  {
    var s := specs + [x];
    assert forall j :: 0 <= j < |specs| ==> s[j] == specs[j];
    assert s[|specs|] == x;
  }

  /** One iteration of `process_kwargs`: the next declaration's field is
      added when it is present and truthy. */
  lemma SelectedStep(specs: seq<CommandArg>, i: nat, r: ParseResult)
    requires i < |specs| && specs[i].tokens != []
    ensures var n := specs[i].GetName().value;
            var before := Selected(DeclaredNames(specs[..i]), r);
            Selected(DeclaredNames(specs[..i + 1]), r) == if n in r && Truthy(r[n]) then before[n := r[n]] else before
  {
    assert specs[..i + 1] == specs[..i] + [specs[i]];
    DeclaredNamesAppend(specs[..i], specs[i]);
    SelectedInsert(DeclaredNames(specs[..i]), specs[i].GetName().value, r);
  }

  /** The keyword arguments `process_kwargs` builds from parse result `r`:
      IndexError when a declaration has no tokens; otherwise every declared
      name whose field in `r` is present and truthy, with its parsed value. */
  ghost function KwargsFor(specs: seq<CommandArg>, r: ParseResult): (kw: Result<Kwargs>)
    ensures kw.Err? ==> kw.error == IndexError
    ensures kw.Ok? ==> forall k :: k in kw.value ==>
              k in DeclaredNames(specs) && k in r && Truthy(r[k]) && kw.value[k] == r[k]
  {
    if exists i :: 0 <= i < |specs| && specs[i].tokens == [] then Err(IndexError)
    else Ok(Selected(DeclaredNames(specs), r))
  }

  /** IndexError exactly when a declaration has no tokens; otherwise a key
      is present exactly when it is the name of a declaration and its field
      in `r` is present and truthy, and it holds the parsed value. */
  lemma KwargsForMeaning(specs: seq<CommandArg>, r: ParseResult)
    ensures KwargsFor(specs, r).Err? <==> exists i :: 0 <= i < |specs| && specs[i].tokens == []
    ensures KwargsFor(specs, r).Err? ==> KwargsFor(specs, r).error == IndexError
    ensures KwargsFor(specs, r).Ok? ==> forall k :: k in KwargsFor(specs, r).value <==>
              (exists i :: 0 <= i < |specs| && specs[i].GetName() == Ok(k)) && k in r && Truthy(r[k])
    ensures KwargsFor(specs, r).Ok? ==> forall k :: k in KwargsFor(specs, r).value ==> KwargsFor(specs, r).value[k] == r[k]
  {
    if KwargsFor(specs, r).Ok? {
      forall k | k in DeclaredNames(specs)
        ensures exists i :: 0 <= i < |specs| && specs[i].GetName() == Ok(k)
      {
        var i :| 0 <= i < |specs| && specs[i].GetName().Ok? && specs[i].GetName().value == k;
      }
    }
  }

  /** A command with one declaration passes on at most that one field. */
  lemma KwargsForOne(specs: seq<CommandArg>, r: ParseResult)
    requires |specs| == 1 && specs[0].tokens != []
    ensures KwargsFor(specs, r) == Ok(Selected({specs[0].GetName().value}, r))
  {
    assert DeclaredNames(specs) == {specs[0].GetName().value};
  }

  /** Fields the command does not declare have no effect on its keyword
      arguments. */
  lemma IgnoresUndeclaredFields(specs: seq<CommandArg>, r: ParseResult, k: string, v: Value)
    requires k !in DeclaredNames(specs)
    ensures KwargsFor(specs, r[k := v]) == KwargsFor(specs, r)
  {
    if forall i :: 0 <= i < |specs| ==> specs[i].tokens != [] {
      var lhs, rhs := Selected(DeclaredNames(specs), r[k := v]), Selected(DeclaredNames(specs), r);
      assert lhs.Keys == rhs.Keys;
      assert lhs == rhs;
    }
  }

  /** A declared field that holds a falsy value (0, "", False, None, []) is
      dropped, not passed on; a truthy one is passed on unchanged. */
  lemma TruthyFieldsOnly(specs: seq<CommandArg>, r: ParseResult, k: string, v: Value)
    requires forall i :: 0 <= i < |specs| ==> specs[i].tokens != []
    requires k in DeclaredNames(specs)
    ensures KwargsFor(specs, r[k := v]).Ok?
    ensures k in KwargsFor(specs, r[k := v]).value <==> Truthy(v)
    ensures Truthy(v) ==> KwargsFor(specs, r[k := v]).value[k] == v
  {
  }

  // ---------------------------------------------------------------------
  // Instances and their members
  // ---------------------------------------------------------------------

  /** A member of an instance: a command (a class attribute the decorator
      produced) or any other value. */
  datatype Member = Decorated(command: Command) | Plain(value: Value)

  /** An instance, seen as its member names (what `dir` lists, in any
      order) paired with what `getattr` returns for each. */
  datatype Instance = Instance(members: seq<(string, Member)>)

  /** What `args=` of the decorator receives: one bare declaration, or a
      sequence (tuple or list) of them. */
  datatype ArgsDecl = One(arg: CommandArg) | Many(args: seq<CommandArg>)

  // ---------------------------------------------------------------------
  // Commands
  // ---------------------------------------------------------------------

  /** A method wrapped by the `command` decorator, with its name, help text
      and argument declarations. */
  class Command {
    const name: string
    const help: Option<string>
    const args: seq<CommandArg>
    /** The wrapped function: called with the instance and keyword arguments. */
    const f: (Instance, Kwargs) -> Outcome

    constructor (name: string, help: Option<string>, args: ArgsDecl, f: (Instance, Kwargs) -> Outcome)
      ensures this.name == name && this.help == help && this.f == f
      ensures this.args == (match args case One(a) => [a] case Many(s) => s)
    {
      this.name := name;
      this.help := help;
      this.args := match args case One(a) => [a] case Many(s) => s;
      this.f := f;
    }

    /** `command(instance, **kwargs)`: the wrapped function's result or
        exception, except that a keyword named after a parameter of
        `__call__` itself (`self`, bound to the command, or `instance`,
        given positionally) makes Python raise TypeError before the wrapped
        function runs. */
    function Call(instance: Instance, kwargs: Kwargs): (o: Outcome)
      ensures ("instance" in kwargs || "self" in kwargs) ==> o == Raised(TypeError("multiple values"))
      ensures "instance" !in kwargs && "self" !in kwargs ==> o == f(instance, kwargs)
    {
      if "instance" in kwargs || "self" in kwargs then Raised(TypeError("multiple values"))
      else f(instance, kwargs)
    }

    /** Registers every declaration, in order, on `parser` (and nothing else). */
    method AddArguments(parser: Parser)
      modifies parser
      ensures parser.registrations == old(parser.registrations) + Registrations(args)
      ensures parser.defaults == old(parser.defaults) && parser.subcommands == old(parser.subcommands)
    {
      for i := 0 to |args|
        invariant parser.registrations == old(parser.registrations) + Registrations(args[..i])
        invariant parser.defaults == old(parser.defaults) && parser.subcommands == old(parser.subcommands)
      {
        parser.AddArgument(args[i].tokens, args[i].options);
        RegistrationsAppend(args[..i], args[i]);
        assert args[..i + 1] == args[..i] + [args[i]];
      }
      assert args[..|args|] == args;
    }

    /** The keyword arguments for this command from parse result `r`. */
    method ProcessKwargs(r: ParseResult) returns (res: Result<Kwargs>)
      ensures res == KwargsFor(args, r)
    {
      var kwargs: Kwargs := map[];
      var i := 0;
      while i < |args|
        invariant 0 <= i <= |args|
        invariant forall j :: 0 <= j < i ==> args[j].tokens != []
        invariant kwargs == Selected(DeclaredNames(args[..i]), r)
      {
        var argname := args[i].GetName();
        if argname.Err? {
          assert args[i].tokens == [];
          return Err(argname.error);
        }
        SelectedStep(args, i, r);
        if argname.value in r && Truthy(r[argname.value]) {
          kwargs := kwargs[argname.value := r[argname.value]];
        }
        i := i + 1;
      }
      assert args[..i] == args;
      assert !exists j :: 0 <= j < |args| && args[j].tokens == [];
      res := Ok(kwargs);
    }
  }

  /** `command(name='', help=None, args=list())` applied to a function: the
      decorator replaces the function with a Command carrying it. */
  method Decorate(f: (Instance, Kwargs) -> Outcome, name: string := "", help: Option<string> := None,
                  args: ArgsDecl := Many([]))
    returns (c: Command)
    ensures fresh(c) && c.name == name && c.help == help && c.f == f
    ensures c.args == (match args case One(a) => [a] case Many(s) => s)
  {
    c := new Command(name, help, args, f);
  }

  // ---------------------------------------------------------------------
  // Discovering the commands of an instance
  // ---------------------------------------------------------------------

  /** The scan keeps members whose name does not start with "__" and whose
      value is a command. */
  predicate IsBinding(m: (string, Member))
  {
    !StartsWith(m.0, "__") && m.1.Decorated?
  }

  /** The binding map `{command.name: command}` built from the members in
      order: a later command with the same name replaces an earlier one. */
  function ListBindings(members: seq<(string, Member)>): (b: map<string, Command>)
    ensures forall k :: k in b ==> b[k].name == k
  {
    if members == [] then map[]
    else
      var rest := ListBindings(members[1..]);
      if IsBinding(members[0]) && members[0].1.command.name !in rest then
        rest[members[0].1.command.name := members[0].1.command]
      else rest
  }

  /** The keys are exactly the names of the commands the scan keeps: no
      member whose name starts with "__" and no value that is not a command
      contributes, and every kept command does. */
  lemma {:induction false} ListBindingsKeys(members: seq<(string, Member)>, k: string)
    ensures k in ListBindings(members) <==>
              exists i :: 0 <= i < |members| && IsBinding(members[i]) && members[i].1.command.name == k
  {
    if members != [] {
      var tail := members[1..];
      assert forall i :: 0 <= i < |tail| ==> tail[i] == members[i + 1];
      ListBindingsKeys(tail, k);
      if k in ListBindings(tail) {
        var i :| 0 <= i < |tail| && IsBinding(tail[i]) && tail[i].1.command.name == k;
        assert members[i + 1] == tail[i];
      }
    }
  }

  /** Each entry is the command object itself under its own name, and it is
      the LAST kept command of that name: a later duplicate replaces an
      earlier one. */
  lemma {:induction false} ListBindingsLastWins(members: seq<(string, Member)>, k: string)
    requires k in ListBindings(members)
    ensures ListBindings(members)[k].name == k
    ensures exists i :: 0 <= i < |members| && IsBinding(members[i])
              && members[i].1.command == ListBindings(members)[k]
              && forall j :: i < j < |members| && IsBinding(members[j]) ==> members[j].1.command.name != k
  {
    var tail := members[1..];
    assert forall i :: 0 <= i < |tail| ==> tail[i] == members[i + 1];
    var rest := ListBindings(tail);
    if k in rest {
      ListBindingsLastWins(tail, k);
      var i :| 0 <= i < |tail| && IsBinding(tail[i]) && tail[i].1.command == rest[k]
               && forall j :: i < j < |tail| && IsBinding(tail[j]) ==> tail[j].1.command.name != k;
      assert members[i + 1] == tail[i];
      assert forall j :: i + 1 < j < |members| && IsBinding(members[j]) ==> members[j].1.command.name != k by {
        forall j | i + 1 < j < |members| && IsBinding(members[j]) ensures members[j].1.command.name != k {
          assert members[j] == tail[j - 1];
        }
      }
    } else {
      forall j | 0 < j < |members| && IsBinding(members[j]) ensures members[j].1.command.name != k {
        assert members[j] == tail[j - 1];
        ListBindingsKeys(tail, k);
      }
    }
  }

  /** The number of members the scan keeps. */
  function CountBindings(members: seq<(string, Member)>): nat
  {
    if members == [] then 0
    else (if IsBinding(members[0]) then 1 else 0) + CountBindings(members[1..])
  }

  /** With N command members of pairwise distinct command names, the scan
      returns exactly N entries. */
  lemma {:induction false} DistinctNamesCount(members: seq<(string, Member)>)
    requires forall i, j :: 0 <= i < j < |members| && IsBinding(members[i]) && IsBinding(members[j])
               ==> members[i].1.command.name != members[j].1.command.name
    ensures |ListBindings(members)| == CountBindings(members)
  {
    if members != [] {
      var tail := members[1..];
      assert forall i :: 0 <= i < |tail| ==> tail[i] == members[i + 1];
      DistinctNamesCount(tail);
      if IsBinding(members[0]) {
        var n := members[0].1.command.name;
        ListBindingsKeys(tail, n);
        assert n !in ListBindings(tail);
      }
    }
  }

  // ---------------------------------------------------------------------
  // The composed object: construction and dispatch
  // ---------------------------------------------------------------------

  /** Sub-parser `e` is the one built for command `b[e.name]`: help text,
      the marker default and one registration per declaration. */
  ghost predicate Registered(e: SubParser, b: map<string, Command>)
    reads e.parser
  {
    && e.name in b
    && e.help == b[e.name].help
    && e.parser.defaults == map[Marker := PyStr(e.name)]
    && e.parser.registrations == Registrations(b[e.name].args)
    && e.parser.subcommands == []
  }

  /** Whether a parse result selects a command, read the way the help
      branch intends: `getattr(args, 'command', False)`, so a missing field
      selects nothing. */
  function MarkerSelected(r: ParseResult): (selected: bool)
    ensures selected <==> Marker in r && Truthy(r[Marker])
  {
    Truthy(GetAttr(r, Marker, PyBool(false)))
  }

  /** `if args.command:` as written: reading the missing field raises
      AttributeError. With no sub-command on the command line, argparse's
      Namespace has no `command` field, so the help branch is not reached. */
  function MarkerAsWritten(r: ParseResult): (t: Result<bool>)
    ensures t.Err? <==> Marker !in r
    ensures Marker !in r ==> t == Err(AttributeError(Marker))
    ensures t.Ok? ==> t.value == MarkerSelected(r)
  {
    if Marker in r then Ok(Truthy(r[Marker])) else Err(AttributeError(Marker))
  }

  /** The parse result of a command line without a sub-command, no field
      at all: the code as written raises where the help branch was meant to
      answer False. */
  lemma NoSubcommandRaisesAsWritten(b: map<string, Command>, instance: Instance)
    ensures MarkerAsWritten(map[]) == Err(AttributeError(Marker))
    ensures !MarkerSelected(map[])
    ensures DispatchAsWritten(b, instance, map[]) == (false, Raised(AttributeError(Marker)))
    ensures Dispatch(b, instance, map[]) == (true, Returned(PyBool(false)))
  {
  }

  /** `command(self.instance, **command.process_kwargs(args))`: IndexError
      from a declaration without tokens, otherwise the call with the
      declared fields that hold a truthy value. */
  ghost function Invoke(c: Command, instance: Instance, r: ParseResult): (o: Outcome)
    ensures (exists i :: 0 <= i < |c.args| && c.args[i].tokens == []) ==> o == Raised(IndexError)
    ensures (forall i :: 0 <= i < |c.args| ==> c.args[i].tokens != []) ==>
              o == c.Call(instance, Selected(DeclaredNames(c.args), r))
  {
    match KwargsFor(c.args, r)
    case Err(e) => Raised(e)
    case Ok(kwargs) => c.Call(instance, kwargs)
  }

  /** What `parse_args` does with parse result `r`, given the binding map:
      whether the help text is shown, and what the call ends with. A marker
      that is not a key makes `bindings.get` raise (a list cannot be hashed)
      or return None, which has no `process_kwargs`. */
  ghost function Dispatch(b: map<string, Command>, instance: Instance, r: ParseResult): (d: (bool, Outcome))
    ensures d.0 ==> d.1 == Returned(PyBool(false))
    ensures MarkerSelected(r) ==> !d.0
    ensures MarkerSelected(r) && r[Marker].PyStr? && r[Marker].s !in b ==>
              d.1 == Raised(AttributeError("process_kwargs"))
    ensures MarkerSelected(r) && r[Marker].PyStr? && r[Marker].s in b ==>
              d.1 == Invoke(b[r[Marker].s], instance, r)
  {
    if !MarkerSelected(r) then (true, Returned(PyBool(false)))
    else if r[Marker].PyList? then (false, Raised(TypeError("unhashable type")))
    else if !(r[Marker].PyStr? && r[Marker].s in b) then (false, Raised(AttributeError("process_kwargs")))
    else (false, Invoke(b[r[Marker].s], instance, r))
  }

  /** `parse_args` with line 101 as written: reading `args.command` on a
      Namespace without that field raises AttributeError; when the field
      is present the dispatch is the intended one. */
  ghost function DispatchAsWritten(b: map<string, Command>, instance: Instance, r: ParseResult): (d: (bool, Outcome))
    ensures Marker !in r ==> d == (false, Raised(AttributeError(Marker)))
    ensures Marker in r ==> d == Dispatch(b, instance, r)
  {
    match MarkerAsWritten(r)
    case Err(e) => (false, Raised(e))
    case Ok(_) => Dispatch(b, instance, r)
  }

  /** Help is shown exactly when no truthy marker is present, and then the
      answer is False; otherwise the outcome is the selected command's. */
  lemma HelpExactlyWithoutMarker(b: map<string, Command>, instance: Instance, r: ParseResult)
    ensures Dispatch(b, instance, r).0 <==> !MarkerSelected(r)
    ensures Dispatch(b, instance, r).0 ==> Dispatch(b, instance, r).1 == Returned(PyBool(false))
    ensures MarkerSelected(r) && r[Marker].PyStr? && r[Marker].s in b ==>
              Dispatch(b, instance, r).1 == Invoke(b[r[Marker].s], instance, r)
  {
  }

  /** A command named "" (the decorator's default name) gets a sub-parser,
      but its falsy marker shows help even though "" is a binding. */
  lemma EmptyNameShowsHelp(b: map<string, Command>, instance: Instance, r: ParseResult)
    requires "" in b && Marker in r && r[Marker] == PyStr("")
    ensures Dispatch(b, instance, r) == (true, Returned(PyBool(false)))
  {
  }

  /** The names of a list of sub-parsers, in order. */
  function NamesOf(subs: seq<SubParser>): (names: seq<string>)
    ensures |names| == |subs|
    ensures forall i :: 0 <= i < |subs| ==> names[i] == subs[i].name
  {
    if subs == [] then [] else [subs[0].name] + NamesOf(subs[1..])
  }

  /** `names` lists every element of `s` exactly once. */
  ghost predicate Enumerates(names: seq<string>, s: set<string>)
  {
    && (forall i :: 0 <= i < |names| ==> names[i] in s)
    && (forall k :: k in s ==> k in names)
    && (forall i, j :: 0 <= i < j < |names| ==> names[i] != names[j])
  }

  /** A list that enumerates a set is as long as the set is large. */
  lemma {:induction false} EnumeratesSize(names: seq<string>, s: set<string>)
    requires Enumerates(names, s)
    ensures |names| == |s|
  {
    if names != [] {
      var last := names[|names| - 1];
      var init := names[..|names| - 1];
      assert forall i :: 0 <= i < |init| ==> init[i] == names[i];
      forall k | k in s - {last} ensures k in init {
        var i :| 0 <= i < |names| && names[i] == k;
        assert i != |names| - 1;
      }
      EnumeratesSize(init, s - {last});
    } else {
      assert forall k :: k !in s;
      assert s == {};
    }
  }

  lemma EnumeratesAdd(names: seq<string>, s: set<string>, key: string)
    requires Enumerates(names, s) && key !in s
    ensures Enumerates(names + [key], s + {key})
  {
    var t := names + [key];
    assert forall i :: 0 <= i < |names| ==> t[i] == names[i];
    assert t[|names|] == key;
  }

  /** The keys of a dict in its iteration order, which is left open. */
  method KeyOrder(s: set<string>) returns (keys: seq<string>)
    ensures Enumerates(keys, s)
  {
    keys := [];
    var rest := s;
    while rest != {}
      invariant rest <= s
      invariant Enumerates(keys, s - rest)
      decreases rest
    {
      var k :| k in rest;
      EnumeratesAdd(keys, s - rest, k);
      assert (s - rest) + {k} == s - (rest - {k});
      keys, rest := keys + [k], rest - {k};
    }
    assert s - rest == s;
  }

  /** The object `with_commands(description)(Cls)(...)` creates: the wrapped
      instance, its parser and the binding map. */
  class CommandedCls {
    const instance: Instance
    const parser: Parser
    var bindings: map<string, Command>

    /** The parser's sub-parsers are one per name in `names`, each built
        for its command in `b`. */
    ghost predicate SubParsersFor(b: map<string, Command>, names: set<string>)
      reads this, parser, parser.SubParsers()
    {
      && Enumerates(NamesOf(parser.subcommands), names)
      && (forall i :: 0 <= i < |parser.subcommands| ==> Registered(parser.subcommands[i], b))
    }

    /** One sub-parser per binding, built for its command, and no marker
        default on the root parser. */
    ghost predicate Valid()
      reads this, parser, parser.SubParsers()
    {
      Marker !in parser.defaults && SubParsersFor(bindings, bindings.Keys)
    }

    constructor (description: string, instance: Instance, config: map<string, Value>)
      ensures this.instance == instance
      ensures fresh(parser) && parser.description == Some(description) && parser.config == config
      ensures parser.registrations == [] && parser.defaults == map[]
      ensures bindings == ListBindings(instance.members)
      ensures |parser.subcommands| == |bindings|
      ensures forall i :: 0 <= i < |parser.subcommands| ==> fresh(parser.subcommands[i].parser)
      ensures Valid()
    {
      this.instance := instance;
      parser := new Parser(Some(description), config);
      bindings := map[];
      new;
      AddCommands();
      EnumeratesSize(NamesOf(parser.subcommands), bindings.Keys);
    }

    /** One iteration of `__add_commands`: a sub-parser named `key` with the
        command's help text, whose `command` default is `key` and on which
        the command registers its declarations. */
    method AddCommand(key: string, command: Command) returns (sub: Parser)
      modifies parser
      ensures fresh(sub)
      ensures parser.subcommands == old(parser.subcommands) + [SubParser(key, command.help, sub)]
      ensures parser.registrations == old(parser.registrations) && parser.defaults == old(parser.defaults)
      ensures sub.defaults == map[Marker := PyStr(key)]
      ensures sub.registrations == Registrations(command.args) && sub.subcommands == []
    {
      sub := parser.AddParser(key, command.help);
      sub.SetDefaults(map[Marker := PyStr(key)]);
      command.AddArguments(sub);
      assert map[] + map[Marker := PyStr(key)] == map[Marker := PyStr(key)];
    }

    /** The loop of `__add_commands`, visiting the bindings `b` in the
        iteration order `keys`. */
    method AddSubParsers(keys: seq<string>, b: map<string, Command>)
      requires parser.subcommands == []
      requires forall i :: 0 <= i < |keys| ==> keys[i] in b
      modifies parser
      ensures parser.registrations == old(parser.registrations) && parser.defaults == old(parser.defaults)
      ensures |parser.subcommands| == |keys|
      ensures forall i :: 0 <= i < |keys| ==>
        parser.subcommands[i].name == keys[i] && fresh(parser.subcommands[i].parser) && Registered(parser.subcommands[i], b)
    {
      for j := 0 to |keys|
        invariant parser.registrations == old(parser.registrations) && parser.defaults == old(parser.defaults)
        invariant |parser.subcommands| == j
        invariant forall i :: 0 <= i < j ==>
          parser.subcommands[i].name == keys[i] && fresh(parser.subcommands[i].parser) && Registered(parser.subcommands[i], b)
      {
        var sub := AddCommand(keys[j], b[keys[j]]);
      }
    }

    /** `__add_commands`: one sub-parser per binding on the root parser,
        then the binding map is stored. It runs once, on a parser that has
        no sub-parsers yet. */
    method AddCommands()
      requires parser.subcommands == []
      modifies this, parser
      ensures bindings == ListBindings(instance.members)
      ensures parser.registrations == old(parser.registrations) && parser.defaults == old(parser.defaults)
      ensures Enumerates(NamesOf(parser.subcommands), bindings.Keys)
      ensures forall i :: 0 <= i < |parser.subcommands| ==>
        fresh(parser.subcommands[i].parser) && Registered(parser.subcommands[i], bindings)
    {
      var b := ListBindings(instance.members);
      var keys := KeyOrder(b.Keys);
      AddSubParsers(keys, b);
      assert NamesOf(parser.subcommands) == keys;
      bindings := b;
    }

    /** A parse result of this parser whose marker is truthy reaches the
        selected command: dispatch calls the binding the marker names. */
    lemma ConstructedMarkersDispatch(r: ParseResult)
      requires Valid() && parser.FromDefaults(r, Marker) && MarkerSelected(r)
      ensures r[Marker].PyStr? && r[Marker].s in bindings
      ensures Dispatch(bindings, instance, r) == (false, Invoke(bindings[r[Marker].s], instance, r))
    {
      var i :| 0 <= i < |parser.subcommands| && Marker in parser.subcommands[i].parser.defaults
               && r[Marker] == parser.subcommands[i].parser.defaults[Marker];
      assert Registered(parser.subcommands[i], bindings);
    }

    /** `parse_args` on parse result `r`: with no truthy marker the help text
        is shown and the answer is False; otherwise the selected command is
        called with the keyword arguments extracted for it. */
    method ParseArgs(r: ParseResult) returns (helpShown: bool, out: Outcome)
      ensures (helpShown, out) == Dispatch(bindings, instance, r)
    {
      if !MarkerSelected(r) {
        // parser.print_help() is console output and is not modelled
        return true, Returned(PyBool(false));
      }
      helpShown := false;
      var marker := r[Marker];
      if marker.PyList? {
        // bindings.get(marker) hashes the marker; a list cannot be hashed
        return false, Raised(TypeError("unhashable type"));
      }
      if !(marker.PyStr? && marker.s in bindings) {
        // bindings.get(marker) is None, and None has no process_kwargs
        return false, Raised(AttributeError("process_kwargs"));
      }
      var command := bindings[marker.s];
      var kwargs := command.ProcessKwargs(r);
      if kwargs.Err? {
        return false, Raised(kwargs.error);
      }
      out := command.Call(instance, kwargs.value);
    }
  }
}
