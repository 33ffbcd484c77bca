/** Printing a parsed document and reading the text again. */
module RoundTrip {
  import opened Outcome
  import opened OrderedMap
  import opened Syntax
  import opened Printer
  import opened Parser
  import opened ParsedDocument
  import L = Lexer
  import PrintedText
  import PrintedTokens

  datatype ReadError = LexFailure(lex: L.LexError) | ParseFailure(parse: ParseError)

  /** Lexing, then parsing, a query text. */
  function ReadDocument(s: string): Result<Document, ReadError> {
    match L.Lex(s)
    case Err(e) => Err(LexFailure(e))
    case Ok(ts) =>
      match ParseDocument(ts)
      case Err(e) => Err(ParseFailure(e))
      case Ok(d) => Ok(d)
  }

  lemma {:induction false} AcceptedIsOk(s: string)
    requires ReadDocument(s).Ok?
    ensures DocumentOk(ReadDocument(s).value)
    ensures |L.Lex(s).value| <= L.MAX_TOKENS
    ensures DocumentSize(ReadDocument(s).value) == |L.Lex(s).value| + Shorthands(L.Lex(s).value, [], [])
  {
    L.LexIsLimitedTokens(s, 0);
    LexedTokensOk(s);
    SoundDefinitions(L.Lex(s).value, [], []);
  }

  /** A well-formed document is read back from its text exactly when its tokens fit the limit. */
  lemma {:induction false} PrintThenRead(d: Document)
    requires DocumentOk(d)
    ensures ReadDocument(DocumentText(d)) == Ok(d) <==> DocumentSize(d) <= L.MAX_TOKENS
  {
    PrintedText.LexDocument(d);
    DocumentCount(d);
    L.LexIsLimitedTokens(DocumentText(d), 0);
    PrintedTokens.ParseDocumentTokens(d);
  }

  /** The round trip, for every accepted text: it fails only when a shorthand operation
      fills the token limit, because the printed form spells out the word `query`. */
  lemma {:induction false} ReadPrintRead(s: string)
    requires ReadDocument(s).Ok?
    ensures var d, ts := ReadDocument(s).value, L.Lex(s).value;
      && (ReadDocument(DocumentText(d)) == Ok(d) <==> |ts| < L.MAX_TOKENS || Shorthands(ts, [], []) == 0)
  {
    AcceptedIsOk(s);
    PrintThenRead(ReadDocument(s).value);
    ShorthandStandsAlone(L.Lex(s).value, [], []);
  }

  /** An accepted document has at most one shorthand operation, since it must stand alone. */
  lemma {:induction false} ShorthandStandsAlone(ts: Tokens, ops: seq<Operation>, fs: seq<Entry<Fragment>>)
    requires ParseDefinitions(ts, ops, fs).Ok?
    ensures ops <= ParseDefinitions(ts, ops, fs).value.operations
    ensures Named(ParseDefinitions(ts, ops, fs).value.operations)
    ensures Shorthands(ts, ops, fs) <= 1
    ensures Shorthands(ts, ops, fs) == 1 ==>
      ops == [] && exists i :: 0 <= i < |ParseDefinitions(ts, ops, fs).value.operations|
                               && ParseDefinitions(ts, ops, fs).value.operations[i].name.None?
    decreases |ts|
  {
    if ts != [] {
      var d := ParseDefinitions(ts, ops, fs).value;
      match ParseDefinition(ts, ops, fs)
      case Parsed(OperationDef(op, shorthand), rest) =>
        ShorthandStandsAlone(rest, ops + [op], fs);
        assert d.operations[|ops|] == op;
      case Parsed(FragmentDef(f), rest) =>
        ShorthandStandsAlone(rest, ops, Insert(fs, Entry(f.name, f)));
    }
  }

  // ---------------------------------------------------------------- the failing family

  function PlainFields(n: nat): (r: seq<Selection>)
    ensures |r| == n && forall i :: 0 <= i < n ==> r[i] == Field("a", None, [], [], [])
  {
    if n == 0 then [] else [Field("a", None, [], [], [])] + PlainFields(n - 1)
  }

  lemma {:induction false} PlainFieldsSize(n: nat)
    ensures ItemsSize(PlainFields(n)) == n
  {
    if n > 0 {
      PlainFieldsSize(n - 1);
      assert PlainFields(n)[1..] == PlainFields(n - 1);
    }
  }

  /** `{ a a … a }` is read as one anonymous query. */
  lemma {:induction false} WideShorthand(n: nat)
    requires 0 < n <= L.MAX_TOKENS - 2
    ensures ReadDocument(SelectionsText(PlainFields(n), 0, ""))
         == Ok(Document([Operation("query", None, [], [], PlainFields(n))], []))
  {
    var ss := PlainFields(n);
    var s, ts := SelectionsText(ss, 0, ""), SelectionsTokens(ss, []);
    PlainFieldsOk(n);
    PrintedText.LexSelections(ss, 0, "", []);
    PlainFieldsSize(n);
    ItemsCount(ss, [L.Punct('}')] + []);
    L.LexIsLimitedTokens(s, 0);
    PrintedTokens.ParseSelectionsTokens(ss, 0, []);
    OneShorthand(ts, ss);
  }

  lemma {:induction false} PlainFieldsOk(n: nat)
    requires n > 0
    ensures SelectionsOk(PlainFields(n), 0)
  {
    var f := Field("a", None, [], [], []);
    assert IsName("a");
    assert EntriesOk([], 0, false) && DirectivesOk([], 0, false);
    assert SelectionOk(f, 0);
  }

  lemma {:induction false} OneShorthand(ts: Tokens, ss: seq<Selection>)
    requires At(ts, '{') && ParseSelections(ts, 0) == Parsed(ss, [])
    ensures ParseDocument(ts) == Ok(Document([Operation("query", None, [], [], ss)], []))
  {
    var op := Operation("query", None, [], [], ss);
    assert ParseDefinition(ts, [], []) == Parsed(OperationDef(op, true), []);
    assert [] + [op] == [op];
    assert ParseDefinitions([], [op], []) == Ok(Document([op], []));
  }

  /** With 8190 fields the text fills the token limit: it is accepted, but its printed form is not. */
  lemma {:induction false} FullShorthandIsNotReprintable(n: nat)
    requires n == L.MAX_TOKENS - 2
    ensures var s := SelectionsText(PlainFields(n), 0, "");
      ReadDocument(s).Ok? && ReadDocument(DocumentText(ReadDocument(s).value)).Err?
  {
    WideShorthand(n);
    var op := Operation("query", None, [], [], PlainFields(n));
    AcceptedIsOk(SelectionsText(PlainFields(n), 0, ""));
    PlainFieldsSize(n);
    assert OperationSize(op) == n + 3;
    assert OperationsSize([op]) == OperationSize(op);
    LongDocumentIsRejected(Document([op], []));
  }

  lemma {:induction false} LongDocumentIsRejected(d: Document)
    requires DocumentOk(d) && DocumentSize(d) > L.MAX_TOKENS
    ensures ReadDocument(DocumentText(d)).Err?
  {
    PrintedText.LexDocument(d);
    DocumentCount(d);
    L.LexIsLimitedTokens(DocumentText(d), 0);
  }
}
