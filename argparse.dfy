/** The narrow part of Python's argparse that the binding layer uses: a
    parser collects argument registrations, default fields and named
    sub-parsers. Tokenising the command line, type coercion and the parse
    step itself are not modelled; a parse result is given as the map from
    field name to value that argparse's Namespace holds. */
module Argparse {
  import opened Values

  /** An argparse.Namespace: field name to parsed value. */
  type ParseResult = map<string, Value>

  /** `getattr(namespace, field, otherwise)`: the field's value, or
      `otherwise` when the Namespace has no such field. */
  function GetAttr(r: ParseResult, field: string, otherwise: Value): Value
  {
    if field in r then r[field] else otherwise
  }

  /** One `add_argument(*tokens, **options)` call. */
  datatype Registration = Registration(tokens: seq<string>, options: map<string, Value>)

  /** One `add_parser(name, help=help)` call of a sub-parser group, with the
      parser object it returned. */
  datatype SubParser = SubParser(name: string, help: Option<string>, parser: Parser)

  class Parser {
    const description: Option<string>
    /** The further keyword configuration given to ArgumentParser(...). */
    const config: map<string, Value>
    /** The layer's own `add_argument` calls, in order. The `-h/--help`
        action that argparse adds to every parser, and the action that
        `add_subparsers` adds, are not listed: neither stores a field. */
    var registrations: seq<Registration>
    var defaults: map<string, Value>
    var subcommands: seq<SubParser>

    constructor (description: Option<string>, config: map<string, Value>)
      ensures this.description == description && this.config == config
      ensures registrations == [] && defaults == map[] && subcommands == []
    {
      this.description := description;
      this.config := config;
      registrations := [];
      defaults := map[];
      subcommands := [];
    }

    /** add_argument: the accepted arguments grow by one registration. */
    method AddArgument(tokens: seq<string>, options: map<string, Value>)
      modifies this
      ensures registrations == old(registrations) + [Registration(tokens, options)]
      ensures defaults == old(defaults) && subcommands == old(subcommands)
    {
      registrations := registrations + [Registration(tokens, options)];
    }

    /** set_defaults: the given fields override earlier defaults. */
    method SetDefaults(fields: map<string, Value>)
      modifies this
      ensures defaults == old(defaults) + fields
      ensures registrations == old(registrations) && subcommands == old(subcommands)
    {
      defaults := defaults + fields;
    }

    /** add_parser on this parser's sub-parser group: a new, empty parser
        selected by `name`. */
    method AddParser(name: string, help: Option<string>) returns (sub: Parser)
      modifies this
      ensures fresh(sub)
      ensures sub.registrations == [] && sub.defaults == map[] && sub.subcommands == []
      ensures subcommands == old(subcommands) + [SubParser(name, help, sub)]
      ensures registrations == old(registrations) && defaults == old(defaults)
    {
      sub := new Parser(None, map[]);
      subcommands := subcommands + [SubParser(name, help, sub)];
    }

    ghost function SubParsers(): set<Parser>
      reads this
    {
      set e | e in subcommands :: e.parser
    }

    /** The fields of a Namespace come from the arguments the user gave and
        from the defaults of the parser and of the one sub-parser selected.
        For a field that no registered argument writes, a parse result of
        this parser can therefore only hold this parser's default or the
        default of one of its sub-parsers. */
    ghost predicate FromDefaults(r: ParseResult, field: string)
      reads this, SubParsers()
    {
      field in r ==>
        || (field in defaults && r[field] == defaults[field])
        || exists i :: 0 <= i < |subcommands| && field in subcommands[i].parser.defaults
                       && r[field] == subcommands[i].parser.defaults[field]
    }
  }
}
