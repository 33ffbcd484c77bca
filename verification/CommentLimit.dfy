/** A comment request that is reviewed, while the broker's own form of it is over the byte budget. */
module CommentLimit {
  import opened Outcome
  import opened OrderedMap
  import opened Syntax
  import opened Printer
  import opened Fragments
  import opened Inlining
  import opened ParsedDocument
  import opened Compaction
  import opened Listings
  import opened Budget
  import opened Analysis
  import opened Requests
  import opened CommentPlan
  import opened CommentMeaning
  import opened CommentReview
  import R = ResultText
  import RoundTrip

  // ---------------------------------------------------------------- the request

  function Alias(n: nat): (r: string)
    requires n > 0
    ensures |r| == n && IsName(r)
  {
    seq(n, _ => 'a')
  }

  const TYPENAME: seq<Selection> := [Field("__typename", None, [], [], [])]

  const GUEST_INPUT: Value := Object([Entry("body", Str("b")), Entry("subjectId", Str("s"))])

  /** `mutation { aa…a: addComment(input: {body: "b", subjectId: "s"}) { __typename } }`. */
  function Guest(n: nat): Operation
    requires n > 0
  {
    Operation("mutation", None, [], [],
              [Field("addComment", Some(Alias(n)), [Entry("input", GUEST_INPUT)], [], TYPENAME)])
  }

  function GuestRequest(n: nat): Request
    requires n > 0
  {
    Request(DocumentText(Document([Guest(n)], [])), None, [])
  }

  lemma {:induction false} GuestInputOk()
    ensures EntriesOk([Entry("input", GUEST_INPUT)], 0, false)
  {
    hide IsNumber;
    assert IsName("input") && IsName("body") && IsName("subjectId") && Less("body", "subjectId");
    assert ValueOk(GUEST_INPUT, 1, false);
    assert EntryOk(Entry("input", GUEST_INPUT), 0, false);
  }

  lemma {:induction false} TypenameOk()
    ensures SelectionOk(TYPENAME[0], 1) && ItemsSize(TYPENAME) == 1 && ResponseOk(TYPENAME, Payload)
  {
    assert IsName("__typename") && EntriesOk([], 1, false) && DirectivesOk([], 1, false);
    assert TYPENAME[1..] == [] && NextLevel(Payload, "__typename") == Some(None);
  }

  lemma {:induction false} GuestOk(n: nat)
    requires n > 0
    ensures DocumentOk(Document([Guest(n)], []))
  {
    var op := Guest(n);
    GuestInputOk();
    TypenameOk();
    assert IsName("addComment");
    assert SelectionOk(op.selections[0], 0);
    assert OperationOk(op);
  }

  lemma {:induction false} GuestSize(n: nat)
    requires n > 0
    ensures DocumentSize(Document([Guest(n)], [])) == 21
  {
    var op := Guest(n);
    var f := op.selections[0];
    TypenameOk();
    assert EntriesSize(GUEST_INPUT.fields[1..]) == 3;
    assert EntriesSize(f.arguments) == 10;
    assert ItemsSize(op.selections) == SelectionSize(f);
    assert OperationsSize([op]) == OperationSize(op);
  }

  lemma {:induction false} GuestCallIsPlanned(response: string)
    ensures PlanCall(GUEST_INPUT, [], [], response) == Some(Plan("s", "b", None, response))
  {
    FindMembers(Str("b"), None, Str("s"));
    assert GUEST_INPUT.fields == InputMembers(Str("b"), None, Str("s"));
    assert Bytes("s") == 1 && !WhiteSpace("b"[0]);
    assert PlanValues(Str("s"), Str("b"), None, [], [], {}, response) == Some(Plan("s", "b", None, response));
  }

  /** The request is read and planned. */
  lemma {:induction false} GuestIsPlanned(n: nat)
    requires n > 0
    ensures var req := GuestRequest(n);
      && RequestOk(req) && RoundTrip.ReadDocument(req.query) == Ok(Document([Guest(n)], [])) && PlanRequest(req).Some?
      && GuestOperation(req) == Guest(n) && GuestVariables(req) == [] && GuestGiven(req) == GUEST_INPUT
  {
    hide DocumentOk, DocumentSize, DocumentText, ResponseOk, PlanCall, ResponseText;
    var d := Document([Guest(n)], []);
    GuestOk(n);
    GuestSize(n);
    TypenameOk();
    RoundTrip.PrintThenRead(d);
    assert d.operations[0].selections[0].arguments[0] == Entry("input", GUEST_INPUT);
    assert CommentShape(d);
    GuestCallIsPlanned(ResponseText(Some(Alias(n)), TYPENAME, ""));
  }

  // ---------------------------------------------------------------- its size on display

  /** The two fields that are displayed for the request. */
  function RootView(n: nat): FieldView
    requires n > 0
  {
    FieldView("addComment", Alias(n), [Alias(n)], None, [Entry("input", GUEST_INPUT)], [])
  }

  function ChildView(n: nat): FieldView
    requires n > 0
  {
    FieldView("__typename", "__typename", [Alias(n), "__typename"], Some(0), [], [])
  }

  /** Their size grows by three bytes with each letter of the alias, which they hold three times. */
  ghost predicate ShowsAlias(show: Display, c: nat) {
    forall n | n > 0 ::
      show.viewBytes([], RootView(n)) + show.viewBytes([RootView(n)], ChildView(n)) == c + 3 * n
  }

  lemma {:induction false} TypenameIsBare()
    ensures SpreadNames(TYPENAME) == {}
    ensures NodesOf(TYPENAME) == [FieldNode("__typename", None, [], [], [])] && Bare(NodesOf(TYPENAME))
  {
    TypenameOk();
    ResponseSpreadsNothing(TYPENAME, Payload, {});
    ResponseIsBare(TYPENAME, Payload, {});
    NoFragments();
    assert TYPENAME[1..] == [];
    assert InlineAll(map[], [], 0, TYPENAME) == [InlineOne(map[], [], 0, TYPENAME[0])] + InlineAll(map[], [], 0, []);
  }

  lemma {:induction false} GuestViews(n: nat)
    requires n > 0
    ensures SpreadNames(TYPENAME) == {} && Bare(NodesOf(TYPENAME))
    ensures CommentViews(Some(Alias(n)), GUEST_INPUT, TYPENAME) == [RootView(n), ChildView(n)]
  {
    TypenameIsBare();
    var ns, child, alias := NodesOf(TYPENAME), ChildView(n), Alias(n);
    assert [alias] + ["__typename"] == [alias, "__typename"] && ns[1..] == [];
    var none: seq<Condition> := [];
    assert none + none == none && IsView(ns[0], child, [alias], [], []);
    ListField(ns[0], 1, child, [alias], [], []);
    assert Listing([], 2, Some(1), child.path, [], []) == Some([]) && [child] + [] == [child];
    assert ListNode(ns[0], 1, Some(0), [alias], [], []) == Some([child]);
    assert Listing(ns, 1, Some(0), [alias], [], []) == Some([child]);
  }

  lemma {:induction false} ShownInput(digest: Digest)
    ensures CompactedFields([Entry("input", GUEST_INPUT)], digest) == [Entry("input", GUEST_INPUT)]
  {
    var es, fs := [Entry("input", GUEST_INPUT)], GUEST_INPUT.fields;
    assert Bytes("b") == 1 && Bytes("s") == 1;
    assert fs[1..] == [Entry("subjectId", Str("s"))] && fs[1..][1..] == [] && es[1..] == [];
    assert CompactedFields(fs[1..], digest) == fs[1..];
    assert CompactedFields(fs, digest) == [fs[0]] + fs[1..] == fs;
  }

  lemma {:induction false} GuestViewsBytes(n: nat, show: Display, c: nat, m: Meter)
    requires n > 0 && ShowsAlias(show, c) && m.digest == show.digest && m.viewBytes == show.viewBytes
    ensures SpreadNames(TYPENAME) == {} && Bare(NodesOf(TYPENAME))
    ensures ViewsBytes(CompactViews(CommentViews(Some(Alias(n)), GUEST_INPUT, TYPENAME), show.digest), m) == c + 3 * n
  {
    hide Bytes, CompactedFields, CommentViews;
    var root, child := RootView(n), ChildView(n);
    GuestViews(n);
    ShownInput(show.digest);
    NothingToCompact(show.digest);
    assert CompactView(root, show.digest) == root && CompactView(child, show.digest) == child;
    var vs := CompactViews([root, child], show.digest);
    assert vs == [root, child];
    assert vs[..1] == [root] && [root][..0] == [];
    assert ViewsBytes([], m) == 0 && ViewsBytes([root], m) == m.viewBytes([], root);
  }

  lemma {:induction false} NothingToCompact(digest: Digest)
    ensures CompactedFields([], digest) == [] && CompactConditions([], digest) == []
  {
  }

  lemma {:induction false} LeafCharge(v: Value, shown: Variables)
    requires v == Str("b") || v == Str("s")
    ensures ValueCharge(v, shown, 1) == Some(19) && !Large(v.text)
  {
    assert Bytes(v.text) == 1;
    var c := v.text[0];
    assert v.text == [c] && v.text[1..] == [] && Escape(c) == [c];
    assert Escaped(v.text[1..], "\"" + "") == "\"" + "" == ['"'];
    assert Escaped(v.text, "\"" + "") == [c] + ['"'];
    assert ValueText(v, "") == "\"" + ([c] + ['"']) == ['"', c, '"'];
    QuotedBytes(v.text[0]);
  }

  lemma {:induction false} GuestCharge(m: Meter)
    ensures InputCharge(GUEST_INPUT, m) == Some(72) && Extra(GUEST_INPUT, m.digest) == 16
  {
    hide Bytes, ValueText, LeafBytes;
    var shown, fs := Shown(m), GUEST_INPUT.fields;
    ShortKeyBytes();
    LongKeyBytes();
    LeafCharge(Str("b"), shown);
    LeafCharge(Str("s"), shown);
    MembersFields(fs[0], fs[1], shown);
    assert fs == [fs[0], fs[1]];
    assert fs[1..] == [fs[1]] && fs[1..][1..] == [];
    assert MembersExtra(fs[1..], m.digest) == 0;
  }

  lemma {:induction false} MembersFields(a: Entry<Value>, b: Entry<Value>, shown: Variables)
    requires ValueCharge(a.value, shown, 1) == Some(19) && ValueCharge(b.value, shown, 1) == Some(19)
    ensures FieldsCharge([a, b], shown, 1) == Some(Bytes(a.key) + Bytes(b.key) + 38)
  {
    hide Bytes, ValueCharge;
    assert [a, b][1..] == [b] && [b][1..] == [] && FieldsCharge([], shown, 1) == Some(0);
  }

  lemma {:induction false} QuotedBytes(c: char)
    requires c as int < 0x80
    ensures Bytes(['"', c, '"']) == 3
  {
    var s := ['"', c, '"'];
    assert s[1..] == [c, '"'] && s[1..][1..] == ['"'] && s[1..][1..][1..] == [] && Bytes([]) == 0;
    assert Bytes(['"']) == 1 && Bytes([c, '"']) == 2;
  }

  lemma {:induction false} ShortKeyBytes()
    ensures Bytes("input") == 5 && Bytes("body") == 4
  {
    assert "input"[1..] == "nput" && "nput"[1..] == "put" && "put"[1..] == "ut" && "ut"[1..] == "t" && "t"[1..] == "";
    assert "body"[1..] == "ody" && "ody"[1..] == "dy" && "dy"[1..] == "y" && "y"[1..] == "" && Bytes("") == 0;
  }

  lemma {:induction false} LongKeyBytes()
    ensures Bytes("subjectId") == 9
  {
    assert "subjectId"[1..] == "ubjectId" && "ubjectId"[1..] == "bjectId" && "bjectId"[1..] == "jectId";
    assert "jectId"[1..] == "ectId" && "ectId"[1..] == "ctId" && "ctId"[1..] == "tId" && "tId"[1..] == "Id";
    assert "Id"[1..] == "d" && "d"[1..] == "" && Bytes("") == 0;
  }

  lemma {:induction false} GuestReview(n: nat, show: Display, c: nat)
    requires n > 0 && ShowsAlias(show, c)
    ensures PlanRequest(GuestRequest(n)).Some?
    ensures ReviewBytes(GuestRequest(n), show) == Some(72 + c + 3 * n)
    ensures AnalyzedPlan(GuestRequest(n), show).Some? <==> 72 + c + 3 * n <= MAX_EXPANDED_BYTES
  {
    hide PlanRequest, Bare, CommentViews, TotalBytes, Reviewable, InputCharge, GuestRequest, ShowsAlias;
    var req, m := GuestRequest(n), MeterFor([], show);
    GuestIsPlanned(n);
    GuestAddsComment(req);
    var f, input := GuestField(req), PlannedInput(PlanRequest(req).value);
    InputIsItself();
    GuestCharge(m);
    GuestViewsBytes(n, show, c, m);
    CommentBytes(Guest(n), f.alias, GUEST_INPUT, TYPENAME, m, GUEST_INPUT);
    CommentReviewable(Guest(n), f.alias, GUEST_INPUT, TYPENAME, m, GUEST_INPUT);
    SmallComment(n);
  }

  lemma {:induction false} InputIsItself()
    ensures Substitute(GUEST_INPUT, []) == Some(GUEST_INPUT)
  {
    SubstituteFree(GUEST_INPUT, []);
  }

  lemma {:induction false} SmallComment(n: nat)
    requires n > 0
    ensures SpreadNames(TYPENAME) == {} && Bare(NodesOf(TYPENAME)) && CommentFits(Some(Alias(n)), GUEST_INPUT, TYPENAME)
  {
    TypenameIsBare();
    var ns := NodesOf(TYPENAME);
    assert ns[1..] == [] && Visits(ns) == 1 && Height(ns) == 1;
    GuestViews(n);
  }

  /** With an alias long enough to leave less than 16 bytes, the guest's request is reviewed and its plan exposed, but
      the rebuilt request is not: its input costs one variable more. */
  lemma {:induction false} FullRequestIsNotReviewedAgain(show: Display, c: nat) returns (n: nat)
    requires ShowsAlias(show, c) && c <= 200_000
    ensures n > 0 && RequestOk(GuestRequest(n)) && AnalyzedPlan(GuestRequest(n), show).Some?
    ensures AnalyzedPlan(RequestBody(AnalyzedPlan(GuestRequest(n), show).value), show)
         != AnalyzedPlan(GuestRequest(n), show)
  {
    hide PlanRequest, ReviewBytes, Reviewable, GuestRequest, ShowsAlias, RequestBody;
    n := (MAX_EXPANDED_BYTES - 72 - c) / 3;
    GuestIsPlanned(n);
    GuestReview(n, show, c);
    GuestCharge(MeterFor([], show));
    ReviewedAgainIff(GuestRequest(n), show);
  }

  // ---------------------------------------------------------------- fields displayed as JSON

  /** The bytes of a JSON string, and of a JSON array of strings. */
  function JsonString(s: string): nat { 2 + R.Escaped(s) }

  function JsonStrings(ss: seq<string>): nat { if ss == [] then 0 else JsonString(ss[0]) + 1 + JsonStrings(ss[1..]) }

  function JsonArray(ss: seq<string>): nat { if ss == [] then 2 else 1 + JsonStrings(ss) }

  function Unnamed(v: FieldView): FieldView { v.(responseName := "", path := []) }

  function AllUnnamed(vs: seq<FieldView>): seq<FieldView> { seq(|vs|, i requires 0 <= i < |vs| => Unnamed(vs[i])) }

  /** A field is displayed as a JSON object with its response name and its path; the other members, among them what is
      derived from the parent field, depend on no response name and no path. */
  ghost predicate ShowsJson(show: Display, others: (seq<FieldView>, FieldView) -> nat) {
    forall vs, v ::
      show.viewBytes(vs, v) == others(AllUnnamed(vs), Unnamed(v)) + JsonString(v.responseName) + JsonArray(v.path)
  }

  const ROOT: FieldView := FieldView("addComment", "", [], None, [Entry("input", GUEST_INPUT)], [])
  const CHILD: FieldView := FieldView("__typename", "", [], Some(0), [], [])

  predicate Plain(c: char) { 0x20 <= c as int < 0x80 && !R.ShortEscape(c) }

  /** Text without anything to escape. */
  lemma {:induction false} PlainText(s: string)
    requires forall i :: 0 <= i < |s| ==> Plain(s[i])
    ensures R.Escaped(s) == |s|
  {
    if s != [] { PlainText(s[1..]); }
  }

  lemma {:induction false} AliasJson(n: nat)
    requires n > 0
    ensures JsonString(Alias(n)) == n + 2 && JsonString("__typename") == 12
  {
    PlainText(Alias(n));
    PlainText("__typename");
  }

  lemma {:induction false} PathsJson(a: string, b: string)
    ensures JsonArray([a]) == JsonString(a) + 2 && JsonArray([a, b]) == JsonString(a) + JsonString(b) + 3
  {
    hide JsonString;
    assert [a][1..] == [] && [a, b][1..] == [b] && [b][1..] == [];
    assert JsonStrings([]) == 0 && JsonStrings([b]) == JsonString(b) + 1;
  }

  lemma {:induction false} GuestUnnamed(n: nat)
    requires n > 0
    ensures AllUnnamed([]) == [] && AllUnnamed([RootView(n)]) == [ROOT]
    ensures Unnamed(RootView(n)) == ROOT && Unnamed(ChildView(n)) == CHILD
  {
  }

  /** Such a display grows as assumed. */
  lemma {:induction false} JsonShowsAlias(show: Display, others: (seq<FieldView>, FieldView) -> nat)
    requires ShowsJson(show, others)
    ensures ShowsAlias(show, others([], ROOT) + others([ROOT], CHILD) + 35)
  {
    forall n | n > 0
      ensures show.viewBytes([], RootView(n)) + show.viewBytes([RootView(n)], ChildView(n))
           == others([], ROOT) + others([ROOT], CHILD) + 35 + 3 * n
    {
      hide JsonString, JsonArray, AllUnnamed, Unnamed, ShowsAlias;
      AliasJson(n);
      PathsJson(Alias(n), "__typename");
      GuestUnnamed(n);
      var root, child := RootView(n), ChildView(n);
      assert root.responseName == Alias(n) && root.path == [Alias(n)];
      assert child.responseName == "__typename" && child.path == [Alias(n), "__typename"];
    }
  }

  /** So the rebuilt request is not reviewed again in any JSON display whose other members take at most 199 000 bytes
      for the two fields. */
  lemma {:induction false} FullRequestInJson(show: Display, others: (seq<FieldView>, FieldView) -> nat) returns (n: nat)
    requires ShowsJson(show, others) && others([], ROOT) + others([ROOT], CHILD) <= 199_000
    ensures n > 0 && RequestOk(GuestRequest(n)) && AnalyzedPlan(GuestRequest(n), show).Some?
    ensures AnalyzedPlan(RequestBody(AnalyzedPlan(GuestRequest(n), show).value), show)
         != AnalyzedPlan(GuestRequest(n), show)
  {
    hide ShowsJson, ShowsAlias;
    JsonShowsAlias(show, others);
    n := FullRequestIsNotReviewedAgain(show, others([], ROOT) + others([ROOT], CHILD) + 35);
  }
}
