/** The test class of the repository: three decorated methods (`do`,
    `other`, `read`) on a class with a `factor` attribute, and the parse
    results argparse produces for the test command lines. */
module FakeApi {
  import opened Values
  import opened Decorators

  /** `getattr(instance, name)`: the member listed under `name`. */
  function Attribute(instance: Instance, name: string): (m: Option<Member>)
    ensures m.Some? <==> exists i :: 0 <= i < |instance.members| && instance.members[i].0 == name
  {
    Find(instance.members, name)
  }

  function Find(members: seq<(string, Member)>, name: string): (m: Option<Member>)
    ensures m.Some? <==> exists i :: 0 <= i < |members| && members[i].0 == name
  {
    if members == [] then None
    else if members[0].0 == name then Some(members[0].1)
    else
      var m := Find(members[1..], name);
      assert m.Some? ==> exists i :: 1 <= i < |members| && members[i].0 == name by {
        if m.Some? {
          var i :| 0 <= i < |members[1..]| && members[1..][i].0 == name;
          assert members[i + 1].0 == name;
        }
      }
      m
  }

  /** A call whose keyword arguments are not all parameters of the function
      raises TypeError. */
  predicate UnexpectedKeyword(kwargs: Kwargs, params: set<string>)
  {
    exists k :: k in kwargs && k !in params
  }

  /** `def do_stuff(self, a=[1]): return a[0] * self.factor`, for integer
      elements and an integer factor. Without `a` the default `[1]` makes
      the answer the factor itself; with a list of integers it is the first
      element times the factor. `a[0]` is evaluated before `self.factor`,
      so a non-list or empty `a` raises before the factor is looked up. */
  function DoStuff(self: Instance, kwargs: Kwargs): (o: Outcome)
    ensures UnexpectedKeyword(kwargs, {"a"}) ==> o == Raised(TypeError("unexpected keyword argument"))
    ensures !UnexpectedKeyword(kwargs, {"a"}) && "a" in kwargs && !kwargs["a"].PyList? ==>
              o == Raised(TypeError("subscript"))
    ensures !UnexpectedKeyword(kwargs, {"a"}) && "a" in kwargs && kwargs["a"] == PyList([]) ==>
              o == Raised(IndexError)
    ensures !UnexpectedKeyword(kwargs, {"a"}) && Attribute(self, "factor") == None
            && ("a" !in kwargs || (kwargs["a"].PyList? && kwargs["a"].items != [])) ==>
              o == Raised(AttributeError("factor"))
    ensures var factor := Attribute(self, "factor");
            kwargs == map[] && factor.Some? && factor.value.Plain? && factor.value.value.PyInt? ==>
              o == Returned(factor.value.value)
    ensures var factor := Attribute(self, "factor");
            kwargs.Keys == {"a"} && kwargs["a"].PyList? && kwargs["a"].items != [] && kwargs["a"].items[0].PyInt?
            && factor.Some? && factor.value.Plain? && factor.value.value.PyInt? ==>
              o == Returned(PyInt(kwargs["a"].items[0].i * factor.value.value.i))
  {
    if UnexpectedKeyword(kwargs, {"a"}) then Raised(TypeError("unexpected keyword argument"))
    else
      var a := if "a" in kwargs then kwargs["a"] else PyList([PyInt(1)]);
      if !a.PyList? then Raised(TypeError("subscript"))
      else if a.items == [] then Raised(IndexError)
      else
        match Attribute(self, "factor")
        case None => Raised(AttributeError("factor"))
        case Some(factor) =>
          if a.items[0].PyInt? && factor.Plain? && factor.value.PyInt? then
            Returned(PyInt(a.items[0].i * factor.value.i))
          else Raised(TypeError("operands"))
  }

  /** `def get_name(self, name): return "My name is %s" % name`, for a
      string argument: the greeting is the fixed prefix followed by the
      name, and a call without `name` raises TypeError. */
  function GreetName(self: Instance, kwargs: Kwargs): (o: Outcome)
    ensures UnexpectedKeyword(kwargs, {"name"}) ==> o == Raised(TypeError("unexpected keyword argument"))
    ensures !UnexpectedKeyword(kwargs, {"name"}) && "name" !in kwargs ==> o == Raised(TypeError("missing argument"))
    ensures kwargs.Keys == {"name"} && kwargs["name"].PyStr? ==>
              o.Returned? && o.value.PyStr? && StartsWith(o.value.s, "My name is ")
              && o.value.s[|"My name is "|..] == kwargs["name"].s
  {
    if UnexpectedKeyword(kwargs, {"name"}) then Raised(TypeError("unexpected keyword argument"))
    else if "name" !in kwargs then Raised(TypeError("missing argument"))
    else if kwargs["name"].PyStr? then Returned(PyStr("My name is " + kwargs["name"].s))
    else Raised(TypeError("format"))
  }

  /** The ASCII characters `str.strip()` removes: space, tab, line feed,
      vertical tab, form feed, carriage return and the separators 0x1C-0x1F. */
  predicate IsSpace(c: char)
  {
    c == ' ' || '\t' <= c <= '\r' || '\U{1C}' <= c <= '\U{1F}'
  }

  function Join(lines: seq<string>): string
  {
    if lines == [] then "" else lines[0] + Join(lines[1..])
  }

  /** `s.strip()`: leading and trailing whitespace removed, nothing else. */
  function Strip(s: string): (t: string)
    ensures |t| <= |s|
    ensures t != [] ==> !IsSpace(t[0]) && !IsSpace(t[|t| - 1])
  {
    if s == [] then s
    else if IsSpace(s[0]) then Strip(s[1..])
    else if IsSpace(s[|s| - 1]) then Strip(s[..|s| - 1])
    else s
  }

  /** `t` is a slice of `s` with only whitespace before and after it. */
  ghost predicate Trims(s: string, t: string)
  {
    exists i, j :: 0 <= i <= j <= |s| && t == s[i..j]
      && (forall k :: 0 <= k < i ==> IsSpace(s[k]))
      && (forall k :: j <= k < |s| ==> IsSpace(s[k]))
  }

  lemma TrimsAfterSpace(s: string, t: string)
    requires s != [] && IsSpace(s[0]) && Trims(s[1..], t)
    ensures Trims(s, t)
  {
    var u := s[1..];
    var i, j :| 0 <= i <= j <= |u| && t == u[i..j]
                && (forall k :: 0 <= k < i ==> IsSpace(u[k]))
                && (forall k :: j <= k < |u| ==> IsSpace(u[k]));
    assert t == s[i + 1..j + 1] by { assert u[i..j] == s[i + 1..j + 1]; }
    forall k | 0 < k < i + 1 ensures IsSpace(s[k]) { assert s[k] == u[k - 1]; }
    forall k | j + 1 <= k < |s| ensures IsSpace(s[k]) { assert s[k] == u[k - 1]; }
  }

  lemma TrimsBeforeSpace(s: string, t: string)
    requires s != [] && IsSpace(s[|s| - 1]) && Trims(s[..|s| - 1], t)
    ensures Trims(s, t)
  {
    var u := s[..|s| - 1];
    var i, j :| 0 <= i <= j <= |u| && t == u[i..j]
                && (forall k :: 0 <= k < i ==> IsSpace(u[k]))
                && (forall k :: j <= k < |u| ==> IsSpace(u[k]));
    assert t == s[i..j] by { assert u[i..j] == s[i..j]; }
    forall k | 0 <= k < i ensures IsSpace(s[k]) { assert s[k] == u[k]; }
    forall k | j <= k < |s| - 1 ensures IsSpace(s[k]) { assert s[k] == u[k]; }
  }

  /** What `Strip` keeps: a slice of `s` with only whitespace before and
      after it. Together with `Strip`'s own contract (no whitespace at
      either end of the result) this determines the result. */
  lemma {:induction false} StripKeepsMiddle(s: string)
    ensures Trims(s, Strip(s))
  {
    if s == [] {
      assert Strip(s) == s[0..0];
    } else if IsSpace(s[0]) {
      StripKeepsMiddle(s[1..]);
      TrimsAfterSpace(s, Strip(s[1..]));
    } else if IsSpace(s[|s| - 1]) {
      StripKeepsMiddle(s[..|s| - 1]);
      TrimsBeforeSpace(s, Strip(s[..|s| - 1]));
    } else {
      assert Strip(s) == s[0..|s|];
    }
  }

  /** `def read(self, file): return ("".join(file)).strip()`, for an open
      text file: the file's lines concatenated, with the surrounding
      whitespace removed. */
  function ReadFile(self: Instance, kwargs: Kwargs): (o: Outcome)
    ensures UnexpectedKeyword(kwargs, {"file"}) ==> o == Raised(TypeError("unexpected keyword argument"))
    ensures !UnexpectedKeyword(kwargs, {"file"}) && "file" !in kwargs ==> o == Raised(TypeError("missing argument"))
    ensures kwargs.Keys == {"file"} && kwargs["file"].PyFile? ==>
              o == Returned(PyStr(Strip(Join(kwargs["file"].lines))))
  {
    if UnexpectedKeyword(kwargs, {"file"}) then Raised(TypeError("unexpected keyword argument"))
    else if "file" !in kwargs then Raised(TypeError("missing argument"))
    else if kwargs["file"].PyFile? then Returned(PyStr(Strip(Join(kwargs["file"].lines))))
    else Raised(TypeError("join"))
  }

  /** The declarations of the test class, as `get_name` sees them. */
  lemma TestDeclarationNames(options: map<string, Value>)
    ensures CommandArg(["-n", "--name"], options).GetName() == Ok("name")
    ensures CommandArg(["-f", "--file"], options).GetName() == Ok("file")
    ensures CommandArg(["a"], options).GetName() == Ok("a")
  {
    LongFlagStripsOnce("-n", "name", options);
    LongFlagStripsOnce("-f", "file", options);
  }

  /** `dir(FakeApi())` with the members that matter: a dunder method, the
      three commands under their method names and the `factor` attribute. */
  function FakeMembers(doCmd: Command, otherCmd: Command, readCmd: Command): seq<(string, Member)>
  {
    [("__init__", Plain(PyObject("method"))),
     ("do_stuff", Decorated(doCmd)),
     ("factor", Plain(PyInt(3))),
     ("get_name", Decorated(otherCmd)),
     ("read", Decorated(readCmd))]
  }

  /** The scan of the test class finds its three commands under their
      command names (not their method names). */
  lemma FakeBindings(doCmd: Command, otherCmd: Command, readCmd: Command)
    requires doCmd.name == "do" && otherCmd.name == "other" && readCmd.name == "read"
    ensures ListBindings(FakeMembers(doCmd, otherCmd, readCmd))
            == map["do" := doCmd, "other" := otherCmd, "read" := readCmd]
  {
    var m := FakeMembers(doCmd, otherCmd, readCmd);
    assert StartsWith(m[0].0, "__");
    assert m[1].0[..2] == "do" && m[3].0[..2] == "ge" && m[4].0[..2] == "re";
    assert m[4..][1..] == [] && m[3..][1..] == m[4..] && m[2..][1..] == m[3..] && m[1..][1..] == m[2..];
    assert ListBindings(m[4..]) == map["read" := readCmd];
    assert ListBindings(m[3..]) == map["read" := readCmd, "other" := otherCmd];
    assert ListBindings(m[2..]) == ListBindings(m[3..]);
    assert ListBindings(m[1..]) == map["read" := readCmd, "other" := otherCmd, "do" := doCmd];
    assert ListBindings(m) == ListBindings(m[1..]);
  }

  const DoArg := CommandArg(["a"], map["nargs" := PyInt(1), "type" := PyObject("int")])
  const NameArg := CommandArg(["-n", "--name"], map["type" := PyObject("str")])
  const FileArg := CommandArg(["-f", "--file"], map["type" := PyObject("FileType")])

  /** The binding map of the test class: its three commands with their
      declarations and methods. */
  ghost predicate FakeApiBindings(b: map<string, Command>)
  {
    && b.Keys == {"do", "other", "read"}
    && b["do"].args == [DoArg] && b["do"].f == DoStuff
    && b["other"].args == [NameArg] && b["other"].f == GreetName
    && b["read"].args == [FileArg] && b["read"].f == ReadFile
  }

  lemma FakeApiShape(doCmd: Command, otherCmd: Command, readCmd: Command)
    requires doCmd.name == "do" && doCmd.args == [DoArg] && doCmd.f == DoStuff
    requires otherCmd.name == "other" && otherCmd.args == [NameArg] && otherCmd.f == GreetName
    requires readCmd.name == "read" && readCmd.args == [FileArg] && readCmd.f == ReadFile
    ensures FakeApiBindings(ListBindings(FakeMembers(doCmd, otherCmd, readCmd)))
    ensures Attribute(Instance(FakeMembers(doCmd, otherCmd, readCmd)), "factor") == Some(Plain(PyInt(3)))
  {
    FakeBindings(doCmd, otherCmd, readCmd);
    var m := FakeMembers(doCmd, otherCmd, readCmd);
    assert m[1..][1..] == m[2..];
    assert m[0].0 != "factor" && m[1].0 != "factor";
    assert Find(m, "factor") == Find(m[1..], "factor") == Find(m[2..], "factor") == Some(Plain(PyInt(3)));
  }

  /** The parse results argparse produces for `fake do 3`, `fake other
      --name test`, `fake read --file infile.txt` and `fake other`. The
      repository's test only implies that the stripped content of
      infile.txt is "iz win"; its content is taken to be the one line
      "iz win\n". */
  const DoResult := map["a" := PyList([PyInt(3)]), Marker := PyStr("do")]
  const OtherResult := map["name" := PyStr("test"), Marker := PyStr("other")]
  const ReadResult := map["file" := PyFile(["iz win\n"]), Marker := PyStr("read")]
  const NoNameResult := map["name" := PyNone, Marker := PyStr("other")]

  /** `do 3` parses to `a=[3]`; with factor 3 the command answers 9. */
  lemma DoGivesNine(b: map<string, Command>, self: Instance)
    requires FakeApiBindings(b) && Attribute(self, "factor") == Some(Plain(PyInt(3)))
    ensures Dispatch(b, self, DoResult) == (false, Returned(PyInt(9)))
  {
    KwargsForOne(b["do"].args, DoResult);
    assert Selected({"a"}, DoResult) == map["a" := PyList([PyInt(3)])];
    assert Invoke(b["do"], self, DoResult) == Returned(PyInt(9));
  }

  /** `other --name test` parses to `name="test"`. */
  lemma OtherGreets(b: map<string, Command>, self: Instance)
    requires FakeApiBindings(b)
    ensures Dispatch(b, self, OtherResult) == (false, Returned(PyStr("My name is test")))
  {
    KwargsForOne(b["other"].args, OtherResult);
    TestDeclarationNames(NameArg.options);
    assert Selected({"name"}, OtherResult) == map["name" := PyStr("test")];
    assert "My name is " + "test" == "My name is test";
    assert Invoke(b["other"], self, OtherResult) == Returned(PyStr("My name is test"));
  }

  /** `other` without `--name` parses to `name=None`, which is dropped, so
      the method is called without its required argument. */
  lemma OtherWithoutName(b: map<string, Command>, self: Instance)
    requires FakeApiBindings(b)
    ensures Dispatch(b, self, NoNameResult) == (false, Raised(TypeError("missing argument")))
  {
    KwargsForOne(b["other"].args, NoNameResult);
    TestDeclarationNames(NameArg.options);
    assert Selected({"name"}, NoNameResult) == map[];
    assert Invoke(b["other"], self, NoNameResult) == Raised(TypeError("missing argument"));
  }

  /** The assumed content of the test's input file, joined and stripped. */
  lemma StripsNewline()
    ensures Strip(Join(["iz win\n"])) == "iz win"
  {
    assert Join(["iz win\n"]) == "iz win\n";
    var s := "iz win\n";
    assert s[..|s| - 1] == "iz win";
  }

  /** `read(file=...)` on the opened test file answers its stripped,
      assumed content. */
  lemma ReadsTestFile(self: Instance)
    ensures ReadFile(self, map["file" := PyFile(["iz win\n"])]) == Returned(PyStr("iz win"))
  {
    var kwargs := map["file" := PyFile(["iz win\n"])];
    assert !UnexpectedKeyword(kwargs, {"file"});
    StripsNewline();
  }

  /** `read --file infile.txt` parses to the opened file; its assumed
      content "iz win\n" comes back stripped. */
  lemma ReadStrips(b: map<string, Command>, self: Instance)
    requires FakeApiBindings(b)
    ensures Dispatch(b, self, ReadResult) == (false, Returned(PyStr("iz win")))
  {
    KwargsForOne(b["read"].args, ReadResult);
    TestDeclarationNames(FileArg.options);
    var kwargs := map["file" := PyFile(["iz win\n"])];
    assert Selected({"file"}, ReadResult) == kwargs;
    ReadsTestFile(self);
    assert b["read"].Call(self, kwargs) == Returned(PyStr("iz win"));
  }

  lemma ThreeCommands(b: map<string, Command>)
    requires FakeApiBindings(b)
    ensures |b| == 3
  {
    assert |b.Keys| == |{"do", "other", "read"}|;
  }

  /** The test class decorated and instantiated: `FakeApi()`. */
  method SetUp() returns (api: CommandedCls)
    ensures fresh(api) && api.Valid()
    ensures FakeApiBindings(api.bindings)
    ensures Attribute(api.instance, "factor") == Some(Plain(PyInt(3)))
  {
    var doCmd := Decorate(DoStuff, name := "do", args := One(DoArg));
    var otherCmd := Decorate(GreetName, name := "other", args := Many([NameArg]));
    var readCmd := Decorate(ReadFile, name := "read", args := Many([FileArg]));
    FakeApiShape(doCmd, otherCmd, readCmd);
    api := new CommandedCls("Fake api test", Instance(FakeMembers(doCmd, otherCmd, readCmd)), map[]);
  }

  /** `test_list_bindings`: the scan finds three commands. */
  method TestListBindings() returns (count: nat)
    ensures count == 3
  {
    var api := SetUp();
    count := |api.bindings|;
    ThreeCommands(api.bindings);
  }

  /** `test_parse_args`: `fake do 3`, `fake other --name test` and
      `fake read --file infile.txt` (the file assumed to hold "iz win\n")
      on one instance; and, beyond the test, `fake other` and a parse
      result with no marker, answered by the corrected marker test. */
  method TestParseArgs() returns (doOut: Outcome, otherOut: Outcome, readOut: Outcome,
                                  noNameOut: Outcome, help: bool, noCommandOut: Outcome)
    ensures doOut == Returned(PyInt(9))
    ensures otherOut == Returned(PyStr("My name is test"))
    ensures readOut == Returned(PyStr("iz win"))
    ensures noNameOut == Raised(TypeError("missing argument"))
    ensures help && noCommandOut == Returned(PyBool(false))
  {
    var api := SetUp();
    DoGivesNine(api.bindings, api.instance);
    OtherGreets(api.bindings, api.instance);
    ReadStrips(api.bindings, api.instance);
    OtherWithoutName(api.bindings, api.instance);
    var shown;
    shown, doOut := api.ParseArgs(DoResult);
    shown, otherOut := api.ParseArgs(OtherResult);
    shown, readOut := api.ParseArgs(ReadResult);
    shown, noNameOut := api.ParseArgs(NoNameResult);
    help, noCommandOut := api.ParseArgs(map[]);
  }
}
