/** saga-execution-state.ts and its JSON form, saga-execution-state-json-serde.ts. */
module ExecutionStates {
  import opened Options
  import Decimal

  datatype ExecutionState = ExecutionState(currentlyExecuting: int, compensating: bool, endState: bool) {
    static function MakeEndState(): ExecutionState {
      ExecutionState(-1, false, true)
    }

    function StartCompensating(): ExecutionState {
      ExecutionState(currentlyExecuting, true, false)
    }

    function NextState(size: nat): ExecutionState {
      ExecutionState(
        if compensating then currentlyExecuting - size else currentlyExecuting + size,
        compensating,
        false)
    }
  }

  // ---------- flat JSON objects of numbers and booleans ----------

  datatype Json = Num(n: int) | Bool(b: bool)
  datatype Member = Member(key: string, value: Json)

  predicate PlainKey(key: string) {
    forall i :: 0 <= i < |key| ==> key[i] != '"' && key[i] != '\\'
  }

  function PrintValue(v: Json): (s: string) {
    match v
    case Bool(true) => "true"
    case Bool(false) => "false"
    case Num(n) => if n < 0 then "-" + Decimal.Digits(-n) else Decimal.Digits(n)
  }

  /** The members and the closing brace, in front of `rest`. */
  function PrintMembers(ms: seq<Member>, rest: string): (s: string)
    requires |ms| > 0
    ensures |s| > 0 && s[0] == '"'
  {
    var tail := if |ms| == 1 then ['}'] + rest else [','] + PrintMembers(ms[1..], rest);
    ['"'] + (ms[0].key + (['"'] + ([':'] + (PrintValue(ms[0].value) + tail))))
  }

  /** The digits at the front of `s` as a number, and what follows them. */
  function ParseNat(s: string): (r: Option<(nat, string)>)
    ensures r.Some? ==> |r.value.1| < |s|
  {
    var k := Decimal.Span(s);
    if k == 0 || (k > 1 && s[0] == '0') then None  // section 6 of RFC 8259
    else Some((Decimal.Value(s[..k]), s[k..]))
  }

  /** A value at the front of `s`, and what follows it. */
  function ParseValue(s: string): (r: Option<(Json, string)>)
    ensures r.Some? ==> |r.value.1| < |s|
  {
    if s == "" then None
    else if s[0] == 't' then
      if |s| >= 4 && s[1] == 'r' && s[2] == 'u' && s[3] == 'e' then Some((Bool(true), s[4..])) else None
    else if s[0] == 'f' then
      if |s| >= 5 && s[1] == 'a' && s[2] == 'l' && s[3] == 's' && s[4] == 'e' then Some((Bool(false), s[5..])) else None
    else if s[0] == '-' then
      match ParseNat(s[1..])
      case None => None
      case Some((n, rest)) => Some((Num(0 - n), rest))
    else
      match ParseNat(s)
      case None => None
      case Some((n, rest)) => Some((Num(n), rest))
  }

  /** The text up to the closing quote, and what follows that quote. */
  function ParseKey(s: string): (r: Option<(string, string)>)
    ensures r.Some? ==> |r.value.1| < |s|
  {
    if s == "" || s[0] == '\\' then None
    else if s[0] == '"' then Some(("", s[1..]))
    else match ParseKey(s[1..])
      case None => None
      case Some((key, rest)) => Some(([s[0]] + key, rest))
  }

  /** Members up to the closing brace, later members winning, and what follows the brace. */
  function ParseMembers(s: string): Option<(map<string, Json>, string)>
    decreases |s|
  {
    if s == "" || s[0] != '"' then None
    else match ParseKey(s[1..])
      case None => None
      case Some((key, afterKey)) =>
        if afterKey == "" || afterKey[0] != ':' then None
        else match ParseValue(afterKey[1..])
          case None => None
          case Some((v, rest)) =>
            if rest != "" && rest[0] == '}' then Some((map[key := v], rest[1..]))
            else if rest == "" || rest[0] != ',' then None
            else match ParseMembers(rest[1..])
              case None => None
              case Some((more, end)) => Some((map[key := v] + more, end))
  }

  function MapOf(ms: seq<Member>): map<string, Json> {
    if ms == [] then map[] else map[ms[0].key := ms[0].value] + MapOf(ms[1..])
  }

  // ---------- the codec ----------

  function Members(s: ExecutionState): seq<Member> {
    [Member("currentlyExecuting", Num(s.currentlyExecuting)),
     Member("compensating", Bool(s.compensating)),
     Member("endState", Bool(s.endState))]
  }

  function Encode(s: ExecutionState): string {
    ['{'] + PrintMembers(Members(s), "")
  }

  /** The members of an object laid over a fresh state. */
  function Assign(m: map<string, Json>): Option<ExecutionState> {
    var i := if "currentlyExecuting" in m then m["currentlyExecuting"] else Num(-1);
    var c := if "compensating" in m then m["compensating"] else Bool(false);
    var e := if "endState" in m then m["endState"] else Bool(false);
    if i.Num? && c.Bool? && e.Bool? then Some(ExecutionState(i.n, c.b, e.b)) else None
  }

  /**
   Reads flat objects of integers and booleans, written without blanks; None for every
   other text, and where a member is not of its field's type.
   */
  function Decode(s: string): Option<ExecutionState> {
    if |s| < 2 || s[0] != '{' then None
    else if s[1] == '}' then (if |s| == 2 then Assign(map[]) else None)
    else match ParseMembers(s[1..])
      case None => None
      case Some((m, rest)) => if rest == "" then Assign(m) else None
  }

  function BoolText(b: bool): string {
    if b then "true" else "false"
  }

  lemma MemberText(key: string, quoted: string, text: string)
    requires quoted == ['"'] + key + ['"', ':']
    ensures ['"'] + (key + (['"'] + ([':'] + text))) == quoted + text
  {
  }

  lemma KeyTexts()
    ensures "\"currentlyExecuting\":" == ['"'] + "currentlyExecuting" + ['"', ':']
    ensures "\"compensating\":" == ['"'] + "compensating" + ['"', ':']
    ensures "\"endState\":" == ['"'] + "endState" + ['"', ':']
  {
  }

  lemma LastMember(m: Member, rest: string)
    ensures PrintMembers([m], rest) ==
      ['"'] + (m.key + (['"'] + ([':'] + (PrintValue(m.value) + (['}'] + rest)))))
  {
  }

  lemma MemberBefore(m: Member, ms: seq<Member>, rest: string)
    requires ms != []
    ensures PrintMembers([m] + ms, rest) ==
      ['"'] + (m.key + (['"'] + ([':'] + (PrintValue(m.value) + ([','] + PrintMembers(ms, rest))))))
  {
    assert ([m] + ms)[1..] == ms;
  }

  lemma MembersText(a: Member, b: Member, c: Member, rest: string)
    ensures PrintMembers([a, b, c], rest) ==
      ['"'] + (a.key + (['"'] + ([':'] + (PrintValue(a.value) + ([','] +
      (['"'] + (b.key + (['"'] + ([':'] + (PrintValue(b.value) + ([','] +
      (['"'] + (c.key + (['"'] + ([':'] + (PrintValue(c.value) + (['}'] + rest)))))))))))))))))
  {
    hide PrintValue, PrintMembers;
    LastMember(c, rest);
    MemberBefore(b, [c], rest);
    MemberBefore(a, [b, c], rest);
    assert [b] + [c] == [b, c] && [a] + [b, c] == [a, b, c];
  }

  /** The text of every state. */
  lemma EncodedText(s: ExecutionState)
    ensures Encode(s) ==
      ['{'] + ("\"currentlyExecuting\":" + (PrintValue(Num(s.currentlyExecuting)) +
      ([','] + ("\"compensating\":" + (BoolText(s.compensating) +
      ([','] + ("\"endState\":" + (BoolText(s.endState) + ['}']))))))))
  {
    var a, b, c := Members(s)[0], Members(s)[1], Members(s)[2];
    assert Members(s) == [a, b, c] && ['}'] + "" == ['}'];
    MembersText(a, b, c, "");
    KeyTexts();
    assert PrintValue(b.value) == BoolText(s.compensating) && PrintValue(c.value) == BoolText(s.endState);
    hide PrintValue, BoolText, PrintMembers;
    var third := BoolText(s.endState) + ['}'];
    MemberText("endState", "\"endState\":", third);
    var second := BoolText(s.compensating) + ([','] + ("\"endState\":" + third));
    MemberText("compensating", "\"compensating\":", second);
    var first := PrintValue(a.value) + ([','] + ("\"compensating\":" + second));
    MemberText("currentlyExecuting", "\"currentlyExecuting\":", first);
  }

  // ---------- the codec inverts ----------

  lemma NatRoundTrip(n: nat, rest: string)
    requires rest == "" || !Decimal.IsDigit(rest[0])
    ensures ParseNat(Decimal.Digits(n) + rest) == Some((n, rest))
  {
    var digits := Decimal.Digits(n);
    var s := digits + rest;
    Decimal.SpanOfDigits(digits, rest);
    assert s[..|digits|] == digits && s[|digits|..] == rest;
    Decimal.ValueOfDigits(n);
  }

  lemma BoolRoundTrip(b: bool, rest: string)
    ensures ParseValue(PrintValue(Bool(b)) + rest) == Some((Bool(b), rest))
  {
    var s := PrintValue(Bool(b)) + rest;
    if b {
      assert PrintValue(Bool(b)) == "true";
      assert s[4..] == rest;
    } else {
      assert PrintValue(Bool(b)) == "false";
      assert s[5..] == rest;
    }
  }

  lemma NumRoundTrip(n: int, rest: string)
    requires rest == "" || !Decimal.IsDigit(rest[0])
    ensures ParseValue(PrintValue(Num(n)) + rest) == Some((Num(n), rest))
  {
    var s := PrintValue(Num(n)) + rest;
    if n < 0 {
      NatRoundTrip(-n, rest);
      assert s[0] == '-' && s[1..] == Decimal.Digits(-n) + rest;
    } else {
      NatRoundTrip(n, rest);
      assert Decimal.IsDigit(Decimal.Digits(n)[0]) && s[0] == Decimal.Digits(n)[0];
    }
  }

  lemma {:induction false} KeyRoundTrip(key: string, rest: string)
    requires PlainKey(key)
    ensures ParseKey(key + (['"'] + rest)) == Some((key, rest))
  {
    var s := key + (['"'] + rest);
    if key == "" {
      assert s == ['"'] + rest && s[1..] == rest;
    } else {
      assert s[1..] == key[1..] + (['"'] + rest) && s[0] == key[0];
      assert PlainKey(key[1..]) && [key[0]] + key[1..] == key;
      KeyRoundTrip(key[1..], rest);
    }
  }

  lemma {:induction false} MembersRoundTrip(ms: seq<Member>, rest: string)
    requires |ms| > 0 && forall m :: m in ms ==> PlainKey(m.key)
    ensures ParseMembers(PrintMembers(ms, rest)) == Some((MapOf(ms), rest))
  {
    var s := PrintMembers(ms, rest);
    var key, v := ms[0].key, ms[0].value;
    var tail := if |ms| == 1 then ['}'] + rest else [','] + PrintMembers(ms[1..], rest);
    var afterKey := [':'] + (PrintValue(v) + tail);
    assert s[1..] == key + (['"'] + afterKey);
    KeyRoundTrip(key, afterKey);
    assert afterKey[1..] == PrintValue(v) + tail;
    assert tail[0] == '}' || tail[0] == ',';
    match v {
      case Bool(b) => BoolRoundTrip(b, tail);
      case Num(n) => NumRoundTrip(n, tail);
    }
    if |ms| == 1 {
      assert tail[1..] == rest;
      assert MapOf(ms) == map[key := v];
    } else {
      assert tail[1..] == PrintMembers(ms[1..], rest);
      MembersRoundTrip(ms[1..], rest);
    }
  }

  lemma {:induction false} MapOfThree(a: Member, b: Member, c: Member)
    requires a.key != b.key && b.key != c.key && a.key != c.key
    ensures MapOf([a, b, c]) == map[a.key := a.value, b.key := b.value, c.key := c.value]
  {
    assert [a, b, c][1..] == [b, c] && [b, c][1..] == [c] && [c][1..] == [];
    assert MapOf([c]) == map[c.key := c.value];
    assert MapOf([b, c]) == map[b.key := b.value, c.key := c.value];
  }

  lemma DecodeOfText(text: string, m: map<string, Json>)
    requires |text| > 0 && text[0] == '"' && ParseMembers(text) == Some((m, ""))
    ensures Decode(['{'] + text) == Assign(m)
  {
    assert (['{'] + text)[1..] == text;
  }

  lemma KeysArePlainAndDistinct(s: ExecutionState)
    ensures forall m :: m in Members(s) ==> PlainKey(m.key)
    ensures "currentlyExecuting" != "compensating" && "compensating" != "endState" && "currentlyExecuting" != "endState"
  {
    assert "currentlyExecuting"[1] == 'u' && "compensating"[1] == 'o' && "endState"[1] == 'n';
  }

  /** Decoding an encoded state gives that state, whatever its three fields are. */
  lemma CodecInverts(s: ExecutionState)
    ensures Decode(Encode(s)) == Some(s)
  {
    hide PrintMembers, ParseMembers, MapOf, Decode, PlainKey;
    var ms := Members(s);
    KeysArePlainAndDistinct(s);
    MembersRoundTrip(ms, "");
    DecodeOfText(PrintMembers(ms, ""), MapOf(ms));
    MapOfThree(ms[0], ms[1], ms[2]);
  }

  /** Hence two states with one text are one state. */
  lemma EncodeIsInjective(s: ExecutionState, t: ExecutionState)
    requires Encode(s) == Encode(t)
    ensures s == t
  {
    CodecInverts(s);
    CodecInverts(t);
  }
}
