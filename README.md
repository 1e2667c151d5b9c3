# commanded: sub-command binding and dispatch, in Dafny

`commanded` turns a Python class into a command-line program. Each method
decorated with `@command(name=..., help=..., args=...)` becomes a
sub-command whose arguments are `command_arg(...)` declarations, and
`@with_commands(description)` wraps the class. Constructing the wrapped
class builds an argparse parser with one sub-parser per command. Each
sub-parser records its command's name as the default of the `command`
field (the *marker*). `parse_args()` reads the marker from the parsed
Namespace, collects the command's declared arguments that hold a truthy
value, and calls the method with them as keyword arguments. With a falsy
marker it prints the help text and returns `False`; without the field,
line 101 raises AttributeError (see Findings).

The model has four modules:

- `Values` (`values.dfy`): the Python values that flow through the layer,
  Python's truth test, and the exceptions that can escape.
- `Argparse` (`argparse.dfy`): the part of argparse that the layer drives.
  A `Parser` class collects argument registrations, defaults and named
  sub-parsers. A parse result is the field-to-value map of a Namespace.
- `Decorators` (`decorators.dfy`): the core.
  - `CommandArg.GetName`.
  - The `Command` class, with its constructor, call, `AddArguments` and
    `ProcessKwargs`.
  - The member scan `ListBindings`.
  - The `CommandedCls` class: construction (`AddCommands`) and dispatch
    (`ParseArgs`).
- `FakeApi` (`fake_api.dfy`): the repository's test class, with its test
  cases stated as methods and lemmas over the model.

The wrapped methods are Dafny function values `(Instance, Kwargs) -> Outcome`.
An instance is the list of member names that `dir()` reports, each paired
with what `getattr` returns for it. `process_kwargs` and
`__add_commands` are loops that change state, so they are methods proved
against specification functions:

- `KwargsFor` specifies `process_kwargs`.
- `Registrations` specifies `add_arguments`.
- `Dispatch` specifies `parse_args`, with the corrected marker test.
- `Registered` is the property each sub-parser has after construction.

The class invariant `CommandedCls.Valid` says two things. There is one
sub-parser per binding, built for that binding's command. And the root
parser has no marker default. From it, `ConstructedMarkersDispatch`
proves that any marker the parser can produce names a binding.

Three facts about the code shape the model:

- `with_commands` accepts `*args, **kwargs`, but `CommandedCls.__init__`'s
  own parameters of the same names shadow them
  (commanded/decorators.py:57, 64-66). So the parser receives the
  arguments the wrapped class is *constructed* with, and extra
  configuration given to the decorator, such as `prog='fake'` in the test
  class, is dropped. The keyword arguments of that construction are the
  `config` parameter of `CommandedCls`'s constructor; the positional ones
  are left out (see below).
- With no sub-command on the command line, line 101 raises
  AttributeError instead of printing the help text (see Findings).
  `Dispatch` and `ParseArgs` follow the corrected test; `DispatchAsWritten`
  is the code as written.
- A declaration without identifier tokens fails only when its command is
  dispatched: `get_name` raises IndexError, modelled as `Err(IndexError)`.
  Any earlier rejection belongs to argparse's own validation of
  `add_argument`, which is not modelled.

## Model

| member | source | states |
|---|---|---|
| Decorators.CommandArg.GetName | commanded/decorators.py:8-12 | no tokens gives IndexError; with one token the name is that token, with two or more it is the second; a leading "--" is removed once and any other token is kept unchanged |
| Decorators.NameIsSuffix | commanded/decorators.py:9-12 | the name is a suffix of the chosen token, at most two characters shorter |
| Decorators.LongFlagStripsOnce | commanded/decorators.py:9-11 | `--x` alone, after a short flag, or followed by more tokens, always gives `x`; only one "--" is removed |
| Decorators.OtherTokensUnchanged | commanded/decorators.py:9-12 | a token without a leading "--" (a positional name, or `-n`) is the name as it stands, alone or in second place |
| Decorators.Registrations | commanded/decorators.py:35-36 | one registration per declaration, in order, with that declaration's tokens and options |
| Decorators.KwargsFor | commanded/decorators.py:40-46 | extraction fails only with IndexError, and every key it passes on is a declared name whose field is present and truthy, with the parsed value |
| Decorators.KwargsForMeaning | commanded/decorators.py:40-46 | keyword extraction fails with IndexError exactly when some declaration has no tokens; otherwise a key is present iff it is a declared name whose field is present and truthy, and its value is the parsed value |
| Decorators.IgnoresUndeclaredFields | commanded/decorators.py:42-45 | changing or adding a field that no declaration names leaves the keyword arguments unchanged |
| Decorators.TruthyFieldsOnly | commanded/decorators.py:44-45 | a declared field is passed on iff its value is truthy (0, "", False, None and [] are dropped), and then with that value |
| Decorators.Command.constructor | commanded/decorators.py:26-30 | name, help and function are stored; a single declaration becomes a one-element sequence, and a sequence is kept as given |
| Decorators.Command.Call | commanded/decorators.py:32-33 | a keyword argument named `instance` or `self` raises TypeError (multiple values for a parameter of `__call__`); otherwise the outcome is the wrapped function's on the instance and keyword arguments |
| Decorators.Command.AddArguments | commanded/decorators.py:35-36 | the parser's registrations grow by exactly `Registrations(args)`; its defaults and sub-parsers are unchanged |
| Decorators.Command.ProcessKwargs | commanded/decorators.py:40-46 | the loop's result is `KwargsFor(args, r)`, i.e. the truthy declared fields or IndexError |
| Decorators.Decorate | commanded/decorators.py:48-54 | `command()` wraps the function in a Command; the defaults are name "", no help and no declarations |
| Decorators.ListBindings | commanded/decorators.py:91-97 | every entry is stored under its own command name |
| Decorators.ListBindingsKeys | commanded/decorators.py:91-97 | a name is a key iff some member not named `__...` holds a Command with that name |
| Decorators.ListBindingsLastWins | commanded/decorators.py:97 | each entry is the command object itself under its own name, and it is the last kept member with that name |
| Decorators.DistinctNamesCount | commanded/decorators.py:95-97 | with pairwise distinct command names the map has one entry per kept member |
| Decorators.MarkerSelected | commanded/decorators.py:101 | the corrected test `getattr(args, 'command', False)`: a command is selected iff the field is present and truthy |
| Decorators.MarkerAsWritten | commanded/decorators.py:101 | `args.command` as written raises AttributeError exactly when the field is missing, and otherwise is its truth value |
| Decorators.NoSubcommandRaisesAsWritten | commanded/decorators.py:99-108 | on the empty parse result the as-written test raises AttributeError and so does the as-written dispatch, while the corrected test selects nothing and the corrected dispatch shows help and answers False |
| Decorators.Invoke | commanded/decorators.py:103-104 | IndexError when a declaration has no tokens; otherwise the command is called with the declared fields that hold a truthy value |
| Decorators.Dispatch | commanded/decorators.py:99-108 | with the corrected marker test: help always answers False, a truthy marker never shows help, a string marker that is no key raises AttributeError when `process_kwargs` is looked up on None, and a key invokes its command |
| Decorators.DispatchAsWritten | commanded/decorators.py:99-108 | with line 101 as written: a Namespace without the `command` field raises AttributeError; with the field, the dispatch is `Dispatch`'s |
| Decorators.HelpExactlyWithoutMarker | commanded/decorators.py:101-108 | help is shown iff there is no truthy marker, and then the answer is False; a marker naming a binding gets that command's outcome |
| Decorators.EmptyNameShowsHelp | commanded/decorators.py:101 | a command with the default name "" is a binding, but selecting it shows help and answers False |
| Decorators.KeyOrder | commanded/decorators.py:80 | the dict's keys in some order, each exactly once |
| Decorators.CommandedCls.constructor | commanded/decorators.py:64-67 | the parser carries the description and configuration, the bindings are `ListBindings` of the instance, there is one fresh sub-parser per binding, the layer has made no `add_argument` call on the root and set no default there, and `Valid()` holds |
| Decorators.CommandedCls.AddCommand | commanded/decorators.py:81-83 | one new sub-parser named `key` with the command's help, marker default `key` and the command's registrations; the root's own registrations and defaults are unchanged |
| Decorators.CommandedCls.AddSubParsers | commanded/decorators.py:80-83 | after the loop, sub-parser i is named keys[i], is fresh and is registered for its command |
| Decorators.CommandedCls.AddCommands | commanded/decorators.py:77-84 | the bindings are stored, the sub-parser names list every key exactly once, and every sub-parser is built for its binding |
| Decorators.CommandedCls.ConstructedMarkersDispatch | commanded/decorators.py:101-104 | for the constructed parser, a truthy marker taken from a default (set at line 82) is a key of the bindings, and dispatch invokes that binding |
| Decorators.CommandedCls.ParseArgs | commanded/decorators.py:99-108 | the help flag and outcome are those of `Dispatch`: help and False without a truthy marker; the unhashable or unknown marker errors; otherwise IndexError from the declarations or the command's own outcome |
| Argparse.Parser.constructor | commanded/decorators.py:66 | a new parser with the description and configuration, with no `add_argument` call of the layer's and no defaults |
| Argparse.Parser.AddArgument | commanded/decorators.py:36 | exactly one registration is appended; nothing else changes |
| Argparse.Parser.SetDefaults | commanded/decorators.py:82 | the given defaults override earlier ones; nothing else changes |
| Argparse.Parser.AddParser | commanded/decorators.py:81 | a fresh, empty sub-parser is appended under its name with its help |
| FakeApi.Attribute | commanded/tests/__init__.py:15 | `self.factor` is found iff the instance lists a member of that name |
| FakeApi.DoStuff | commanded/tests/__init__.py:14-15 | an unexpected keyword raises TypeError; `a[0]` comes first, so a non-list `a` raises TypeError and an empty list IndexError whether or not there is a factor; otherwise a missing `factor` raises AttributeError; without `a` the default `[1]` answers the factor itself, and a list of integers gives its first element times the factor |
| FakeApi.GreetName | commanded/tests/__init__.py:18-19 | an unexpected keyword raises TypeError, and so does a call without `name`; a string name gives "My name is " followed by exactly that name |
| FakeApi.ReadFile | commanded/tests/__init__.py:24-25 | an unexpected keyword raises TypeError, and so does a call without `file`; an open file gives its lines joined and stripped |
| FakeApi.Strip | commanded/tests/__init__.py:25 | the result is no longer than its input and neither starts nor ends with whitespace |
| FakeApi.StripKeepsMiddle | commanded/tests/__init__.py:25 | the result is a slice of the input with only whitespace before and after it |
| FakeApi.TestDeclarationNames | commanded/tests/__init__.py:13-22 | the test declarations are named `a`, `name` and `file` |
| FakeApi.FakeBindings | commanded/tests/__init__.py:9-25 | the scan of the test class maps `do`, `other` and `read` to their commands, and skips the dunder and `factor` members |
| FakeApi.DoGivesNine | commanded/tests/__init__.py:39-41 | `fake do 3` dispatches to 9 |
| FakeApi.OtherGreets | commanded/tests/__init__.py:43-45 | `fake other --name test` dispatches to "My name is test" |
| FakeApi.OtherWithoutName | commanded/tests/__init__.py:17-19 | `fake other` drops the None name and the call raises TypeError for the missing argument |
| FakeApi.StripsNewline | commanded/tests/__init__.py:25 | the assumed content "iz win\n" of the test file reads back as "iz win" |
| FakeApi.ReadsTestFile | commanded/tests/__init__.py:24-25 | `read(file=...)` on a file holding the assumed line "iz win\n" answers "iz win" |
| FakeApi.ReadStrips | commanded/tests/__init__.py:47-49 | `fake read --file infile.txt`, with the file assumed to hold "iz win\n", dispatches to "iz win" |
| FakeApi.ThreeCommands | commanded/tests/__init__.py:51-54 | the test class's binding map has three entries |
| FakeApi.SetUp | commanded/tests/__init__.py:28-30 | `FakeApi()` is valid, binds the three test commands and has factor 3 |
| FakeApi.TestListBindings | commanded/tests/__init__.py:51-54 | `len(list_bindings())` is 3 |
| FakeApi.TestParseArgs | commanded/tests/__init__.py:38-49 | the three test command lines give 9, "My name is test" and "iz win"; `fake other` raises TypeError, and a result without a marker gives help and False under the corrected marker test |

## Left out

- Argparse's parsing is not modelled: tokenising `sys.argv`, type
  coercion, `nargs`, `FileType` opening files, usage errors and exit codes.
  A parse result appears as the map it produces. The only thing stated
  about it is `Parser.FromDefaults`: a field no argument writes holds a
  parser default.
- Argparse's own checks inside `add_argument` are not modelled. Neither is
  its derivation of a field name from the tokens (a single "-n" gives the
  field `n`, and dashes become underscores). The model uses the names that
  `get_name` derives.
- A declared argument whose field is itself named `command` would
  overwrite the marker. `ConstructedMarkersDispatch` assumes it does not,
  via `FromDefaults`.
- A command line without a sub-command is taken to parse to a Namespace
  with no field at all: in Python 3 argparse the sub-parser group is not
  required, and neither it nor the root parser sets `command`. This is
  what `NoSubcommandRaisesAsWritten` is about; the parse step itself is
  not modelled.
- Decorators.CommandedCls.ParseArgs: follows the corrected marker test of
  `Dispatch`. On a Namespace without the `command` field it shows help
  and answers False, where line 101 as written raises AttributeError
  (`DispatchAsWritten`, see Findings).
- FakeApi.TestParseArgs: its last case, a parse result without a marker,
  is answered by the corrected `ParseArgs`; the code as written raises
  AttributeError there. The repository's test does not exercise it.
- FakeApi.ReadStrips, FakeApi.StripsNewline, FakeApi.ReadsTestFile: the content of infile.txt
  is not part of this model. The test only implies that its stripped text
  is "iz win"; the model takes it to be the single line "iz win\n".
- Argparse's automatic `-h/--help` option on every parser, and the action
  that `add_subparsers` adds to the root, are not modelled as
  registrations. Neither stores a field in the Namespace.
- The help text that `print_help` writes is console output: only the
  `False` answer is modelled.
- `CommandedCls.__getattribute__` (commanded/decorators.py:69-75) is not
  modelled. It forwards attributes through Python reflection, with a bare
  `except`.
- The order in which `dir()` lists members is not modelled: the member
  list is an arbitrary sequence.
- Decorators.KeyOrder: leaves the dict's iteration order open. Python
  iterates in insertion order, which depends on that `dir()` order. No
  property of the model depends on it.
- Decorators.Command.Call: takes keyword arguments only. `parse_args`
  never passes positional ones through `*args`.
- Building the wrapped instance with `Cls(*args, **kwargs)` is not
  modelled: the instance is a constructor parameter.
- The `parent_parser` parameter of `with_commands` is not modelled: the
  code never uses it.
- Calling `__add_commands` a second time is not modelled: argparse refuses
  a second `add_subparsers`. `AddCommands` requires a parser without
  sub-parsers.
- Floating-point values are not modelled.
- Markers equal to a key only through Python's cross-type equality are
  not modelled; all binding keys are strings.
- FakeApi.DoStuff, FakeApi.GreetName, FakeApi.ReadFile: these are exact
  only on the values the test declarations produce: integer lists,
  strings and open files. Other operand types collapse into one
  TypeError.
- FakeApi.Strip: removes ASCII whitespace only. Python's `str.strip()`
  also removes the other Unicode whitespace characters, such as U+00A0,
  which the model keeps.
- Decorators.CommandedCls.constructor: `config` holds only the keyword
  arguments the wrapped class is constructed with. Positional ones also
  reach `ArgumentParser(description=description, *args)` at line 66: the
  first binds `prog`, and a third binds `description` a second time and
  raises TypeError. Neither is modelled.
- The file handling in the test's `setUp`/`tearDown` is I/O. The file
  appears as its lines.
- `commanded/utils.py` (reflection helpers the core does not use) and
  `setup.py` (packaging) are not part of this model.

## Findings

| source | as written | input that shows it | evidently intended | confidence | as-written member | corrected member |
|---|---|---|---|---|---|---|
| commanded/decorators.py:101 | `if args.command:` reads a field that only a sub-parser's default creates; the root parser has none, and Python 3 argparse accepts a command line without a sub-command | `fake` with no sub-command: the Namespace has no `command` field, so AttributeError is raised | read a missing field as False (`getattr(args, 'command', False)`), so that the `else` branch prints the help text and returns False | not executed | Decorators.MarkerAsWritten, Decorators.DispatchAsWritten, Decorators.NoSubcommandRaisesAsWritten | Decorators.MarkerSelected, Decorators.Dispatch, Decorators.HelpExactlyWithoutMarker, Decorators.CommandedCls.ParseArgs |
