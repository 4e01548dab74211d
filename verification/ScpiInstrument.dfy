// The instrument's own commands: the table and the codes its registrations leave, and which
// other commands run the same handlers.
module ScpiInstrument {
  import opened Options
  import opened ScpiHeader

  const TABLE: seq<string> := [
    "*IDN", "SYST", "ERR", "SYSTem", "TEMPerature", "FIN", "SYS", "SOURce", "VOLTage", "CURRent", "VLIMit", "ILIMit",
    "SETGain", "MEASure", "GETGain"
  ]

  // The codes of the twelve commands, in the order they are registered.
  const CODES: seq<nat> := [47, 153, 248, 29, 120, 121, 154, 139, 124, 55, 92, 21]

  const SETUP := [
    Command("*IDN?"), Command("SYST:ERR?"),
    Base("SYSTem:"), Command(":TEMPerature:FIN?"), Command(":TEMPerature:SYS?"),
    Base("SOURce:"), Command(":VOLTage"), Command(":CURRent"), Command(":CURRent:VLIMit"), Command(":VOLTage:ILIMit"),
    Command(":SETGain"),
    Base("MEASure:"), Command(":VOLTage?"), Command(":CURRent?"), Command(":GETGain?")
  ]

  // The first two letters of the table's tokens.
  const FIRSTS := "*SESTFSSVCVISMG"
  const SECONDS := "IYRYEIYOOULLEEE"

  predicate Heads(tokens: seq<string>, firsts: string, seconds: string) {
    |firsts| == |seconds| == |tokens| && forall i :: 0 <= i < |tokens| ==> HeadAt(tokens[i], firsts[i], seconds[i])
  }

  lemma TableHeads()
    ensures Heads(TABLE, FIRSTS, SECONDS)
  {
    forall i: nat | i < |TABLE| ensures HeadAt(TABLE[i], FIRSTS[i], SECONDS[i]) {
      if i < 8 { LowHeads(i); } else { HighHeads(i); }
    }
  }

  predicate HeadAt(token: string, first: char, second: char) {
    |token| >= 2 && token[0] == first && token[1] == second && !EndsHash(token)
  }

  lemma LowHeads(i: nat)
    requires i < 8
    ensures HeadAt(TABLE[i], FIRSTS[i], SECONDS[i])
  {
  }

  lemma HighHeads(i: nat)
    requires 8 <= i < 15
    ensures HeadAt(TABLE[i], FIRSTS[i], SECONDS[i])
  {
  }

  // -------------------------------------------------- a token selects itself

  // No earlier token begins with the same two letters.
  predicate NewHead(firsts: string, seconds: string, i: nat)
    requires i < |firsts| == |seconds|
  {
    forall k :: 0 <= k < i ==> ToUpper(firsts[k]) != ToUpper(firsts[i]) || ToUpper(seconds[k]) != ToUpper(seconds[i])
  }

  lemma NewHeads(i: nat)
    requires i < 15 && i != 3 && i != 6
    ensures NewHead(FIRSTS, SECONDS, i)
  {
  }

  predicate SameHead(i: nat, k: nat)
    requires i < 15 && k < 15
  {
    ToUpper(FIRSTS[i]) == ToUpper(FIRSTS[k]) && ToUpper(SECONDS[i]) == ToUpper(SECONDS[k])
  }

  // SYST, SYSTem and SYS are the only ones that do.
  lemma OnlySyst(k: nat, i: nat)
    requires k < i < 15 && SameHead(i, k)
    ensures (k == 1 && i == 3) || (k == 1 && i == 6) || (k == 3 && i == 6)
  {
    if i != 3 && i != 6 { NewHeads(i); }
  }

  lemma HeadsDiffer(tokens: seq<string>, firsts: string, seconds: string, i: nat, k: nat)
    requires Heads(tokens, firsts, seconds) && i < |tokens| && k < |tokens|
    requires ToUpper(firsts[i]) != ToUpper(firsts[k]) || ToUpper(seconds[i]) != ToUpper(seconds[k])
    ensures !Spells(tokens[i], tokens[k]) && !(tokens[i] <= tokens[k])
  {
    Differs(tokens[i], tokens[k], if ToUpper(firsts[i]) != ToUpper(firsts[k]) then 0 else 1);
  }

  lemma SystForms()
    ensures !Spells("SYSTem", "SYST") && !Spells("SYS", "SYST") && !Spells("SYS", "SYSTem")
    ensures !("SYSTem" <= "SYST") && "SYS" <= "SYST" && "SYS" <= "SYSTem"
  {
    IsForm("SYST", "SYST", "SYST");
    IsForm("SYSTem", "SYST", "SYSTEM");
    UpperIs("SYS", "SYS");
    assert "SYST"[..3] == "SYS" && "SYSTem"[..3] == "SYS";
  }

  lemma NotSpelled(k: nat, i: nat)
    requires k < i < 15
    ensures !Spells(TABLE[i], TABLE[k])
  {
    TableHeads();
    SystForms();
    if SameHead(i, k) { OnlySyst(k, i); } else { HeadsDiffer(TABLE, FIRSTS, SECONDS, i, k); }
  }

  lemma SelfSpells(token: string)
    requires !EndsHash(token)
    ensures Spells(token, token)
  {
  }

  lemma SelectsItself(tokens: seq<string>, n: nat, i: nat)
    requires i < n <= |tokens| && (forall k :: 0 <= k < |tokens| ==> !EndsHash(tokens[k]))
    requires forall k :: 0 <= k < i ==> !Spells(tokens[i], tokens[k])
    ensures FirstFrom(tokens[..n], tokens[i], 0) == Some(i)
  {
    SelfSpells(tokens[i]);
    PlainFirst(tokens[..n], tokens[i], i);
  }

  // Whatever part of the table is stored, a token in it selects itself.
  lemma TableSelf(n: nat, i: nat)
    requires i < n <= 15
    ensures FirstFrom(TABLE[..n], TABLE[i], 0) == Some(i)
  {
    TableHeads();
    forall k | 0 <= k < i ensures !Spells(TABLE[i], TABLE[k]) { NotSpelled(k, i); }
    SelectsItself(TABLE, n, i);
  }

  // ------------------------------------------------------------------- the tokens

  lemma {:induction false} AlreadyNone(tokens: seq<string>, t: string)
    requires forall k :: 0 <= k < |tokens| ==> !(t <= tokens[k])
    ensures !Already(tokens, t)
  {
    if tokens != [] { AlreadyNone(tokens[..|tokens| - 1], t); }
  }

  lemma {:induction false} AlreadyOnce(tokens: seq<string>, t: string, i: nat)
    requires i < |tokens| && t <= tokens[i] && forall k :: 0 <= k < |tokens| && k != i ==> !(t <= tokens[k])
    ensures Already(tokens, t)
  {
    var n := |tokens| - 1;
    if i == n { AlreadyNone(tokens[..n], t); } else { AlreadyOnce(tokens[..n], t, i); }
  }

  lemma {:induction false} AlreadyAppend(a: seq<string>, b: seq<string>, t: string)
    ensures Already(a + b, t) <==> Already(a, t) != Already(b, t)
    decreases |b|
  {
    if b == [] {
      assert a + b == a;
    } else {
      var n := |b| - 1;
      assert (a + b)[..|a + b| - 1] == a + b[..n];
      AlreadyAppend(a, b[..n], t);
    }
  }

  lemma NotBegun(i: nat, k: nat)
    requires i < 15 && k < 15 && !SameHead(i, k)
    ensures !(TABLE[i] <= TABLE[k])
  {
    TableHeads();
    HeadsDiffer(TABLE, FIRSTS, SECONDS, i, k);
  }

  // SYS begins two stored tokens, so it is stored itself.
  lemma SysIsNew()
    ensures !Already(TABLE[..6], TABLE[6])
  {
    SystForms();
    forall k: nat | k < 6 && k != 1 && k != 3 ensures !(TABLE[6] <= TABLE[k]) {
      if SameHead(6, k) { OnlySyst(k, 6); } else { NotBegun(6, k); }
    }
    AlreadyOnce(TABLE[..2], TABLE[6], 1);
    AlreadyOnce(TABLE[2..6], TABLE[6], 1);
    AlreadyAppend(TABLE[..2], TABLE[2..6], TABLE[6]);
    assert TABLE[..2] + TABLE[2..6] == TABLE[..6];
  }

  lemma NewIsNew(n: nat)
    requires n < 15
    ensures !Already(TABLE[..n], TABLE[n])
  {
    if n == 6 {
      SysIsNew();
    } else {
      forall k | 0 <= k < n ensures !(TABLE[n] <= TABLE[k]) {
        if SameHead(n, k) { OnlySyst(k, n); SystForms(); } else { NotBegun(n, k); }
      }
      AlreadyNone(TABLE[..n], TABLE[n]);
    }
  }

  lemma OldIsOld(n: nat, i: nat)
    requires 4 <= i < n <= 15 && i != 6 && (i == 4 ==> n <= 6)
    ensures Already(TABLE[..n], TABLE[i])
  {
    forall k | 0 <= k < n && k != i ensures !(TABLE[i] <= TABLE[k]) {
      if SameHead(i, k) {
        if k < i { OnlySyst(k, i); } else { OnlySyst(i, k); }
      } else {
        NotBegun(i, k);
      }
    }
    AlreadyOnce(TABLE[..n], TABLE[i], i);
  }

  // -------------------------------------------------------------------- the codes

  // A keyword of letters, or beginning with a star.
  predicate Word(t: string) { Plain(t) && t[|t| - 1] != '?' }

  lemma LowWords(i: nat)
    requires i < 8
    ensures Word(TABLE[i])
  {
  }

  lemma HighWords(i: nat)
    requires 8 <= i < 15
    ensures Word(TABLE[i])
  {
  }

  // Keywords that are these tokens.
  predicate Names(tokens: seq<string>, hs: seq<string>, js: seq<nat>) {
    |hs| == |js| && forall k :: 0 <= k < |js| ==> js[k] < |tokens| && hs[k] == tokens[js[k]]
  }

  lemma {:induction false} NamedIndices(n: nat, hs: seq<string>, js: seq<nat>)
    requires n <= 15 && Names(TABLE[..n], hs, js)
    ensures Indices(TABLE[..n], hs) == Some(js)
    decreases |hs|
  {
    if hs != [] {
      TableSelf(n, js[0]);
      NamedIndices(n, hs[1..], js[1..]);
      IndicesCons(TABLE[..n], hs[0], hs[1..], js[0], js[1..]);
      assert hs == [hs[0]] + hs[1..] && js == [js[0]] + js[1..];
    }
  }

  lemma NoQuery(hs: seq<string>)
    requires hs != [] && Word(hs[|hs| - 1])
    ensures !IsQuery(hs)
  {
  }

  // The code of a command given by its tokens in full.
  lemma NamedCode(n: nat, tree: nat, a: nat, b: nat, hs: seq<string>, js: seq<nat>, query: bool)
    requires n <= 15 && hs != [] && Names(TABLE[..n], hs, js) && Word(hs[|hs| - 1])
    requires Start(tree) == 16 * a + b && a < 16 && b < 16
    ensures Code(TABLE[..n], tree, INSTRUMENT_MAGIC, Typed(hs, query)) == Final(PairCode([a, b] + js), query)
  {
    NoQuery(hs);
    TypedHeaders(hs, query);
    NamedIndices(n, hs, js);
    LastTwo(a, b, js);
    CodeOf(TABLE[..n], tree, Typed(hs, query), hs, js);
  }

  lemma CodeOf(tokens: seq<string>, tree: nat, commands: seq<string>, hs: seq<string>, js: seq<nat>)
    requires Headers(commands) == hs && Indices(tokens, hs) == Some(js)
    ensures Code(tokens, tree, INSTRUMENT_MAGIC, commands) ==
            Final(Horner(Start(tree), js, INSTRUMENT_MAGIC), IsQuery(commands))
  {
  }

  // ------------------------------------------------------------ one call of the set-up

  // How much of the table is stored after token i, new or old, has been added.
  function Filled(n: nat, i: nat): nat { if i == n then n + 1 else n }

  predicate Addable(n: nat, i: nat) {
    i < 15 && n <= 15 && (i == n || (4 <= i < n && i != 6 && (i == 4 ==> n <= 6)))
  }

  lemma Added(n: nat, i: nat, query: bool)
    requires Addable(n, i) && Word(TABLE[i])
    ensures AddToken(TABLE[..n], if query then TABLE[i] + "?" else TABLE[i]) == TABLE[..Filled(n, i)]
  {
    var token := if query then TABLE[i] + "?" else TABLE[i];
    assert ScpiHeader.Stored(token) == TABLE[i];
    if i == n {
      NewIsNew(n);
      assert TABLE[..n] + [TABLE[n]] == TABLE[..n + 1];
    } else {
      OldIsOld(n, i);
    }
  }

  lemma OneAdded(tokens: seq<string>, a: string)
    ensures AddTokens(tokens, [a]) == AddToken(tokens, a)
  {
    assert [a][1..] == [];
  }

  lemma TwoAdded(tokens: seq<string>, a: string, b: string)
    ensures AddTokens(tokens, [a, b]) == AddToken(AddToken(tokens, a), b)
  {
    assert [a, b][1..] == [b];
    OneAdded(AddToken(tokens, a), b);
  }

  lemma TypedOne(h: string, query: bool)
    ensures Typed([h], query) == [if query then h + "?" else h]
  {
  }

  lemma TypedTwo(g: string, h: string, query: bool)
    ensures Typed([g, h], query) == [g, if query then h + "?" else h]
  {
  }

  lemma WordAt(i: nat)
    requires i < 15
    ensures Word(TABLE[i])
  {
    if i < 8 { LowWords(i); } else { HighWords(i); }
  }

  lemma OneFilled(n: nat, i: nat, query: bool)
    requires Addable(n, i)
    ensures AddTokens(TABLE[..n], Typed([TABLE[i]], query)) == TABLE[..Filled(n, i)]
  {
    WordAt(i);
    TypedOne(TABLE[i], query);
    OneAdded(TABLE[..n], if query then TABLE[i] + "?" else TABLE[i]);
    Added(n, i, query);
  }

  lemma TwoFilled(n: nat, i: nat, j: nat, query: bool)
    requires Addable(n, i) && Addable(Filled(n, i), j)
    ensures AddTokens(TABLE[..n], Typed([TABLE[i], TABLE[j]], query)) == TABLE[..Filled(Filled(n, i), j)]
  {
    WordAt(i);
    WordAt(j);
    TypedTwo(TABLE[i], TABLE[j], query);
    TwoAdded(TABLE[..n], TABLE[i], if query then TABLE[j] + "?" else TABLE[j]);
    Added(n, i, false);
    Added(Filled(n, i), j, query);
  }

  lemma OneCode(n: nat, tree: nat, a: nat, b: nat, i: nat, query: bool)
    requires i < n <= 15 && Start(tree) == 16 * a + b && a < 16 && b < 16
    ensures Code(TABLE[..n], tree, INSTRUMENT_MAGIC, Typed([TABLE[i]], query)) == Final(16 * b + i, query)
  {
    WordAt(i);
    NamedCode(n, tree, a, b, [TABLE[i]], [i], query);
    assert [a, b] + [i] == [a, b, i];
  }

  lemma TwoCode(n: nat, tree: nat, a: nat, b: nat, i: nat, j: nat, query: bool)
    requires i < n <= 15 && j < n && Start(tree) == 16 * a + b && a < 16 && b < 16
    ensures Code(TABLE[..n], tree, INSTRUMENT_MAGIC, Typed([TABLE[i], TABLE[j]], query)) == Final(16 * i + j, query)
  {
    WordAt(j);
    NamedCode(n, tree, a, b, [TABLE[i], TABLE[j]], [i, j], query);
    assert [a, b] + [i, j] == [a, b, i, j];
  }

  lemma CommandIs(p: Parser, text: string, ks: seq<string>, tokens: seq<string>, code: nat)
    requires Keywords(text) == ks && AddTokens(p.tokens, ks) == tokens
    requires Code(tokens, p.tree, INSTRUMENT_MAGIC, ks) == code
    ensures Register(p, INSTRUMENT_MAGIC, Command(text)) == Parser(tokens, p.codes + [code], p.tree)
  {
  }

  lemma BaseIs(p: Parser, text: string, ks: seq<string>, tokens: seq<string>, code: nat)
    requires text != [] && Keywords(text) == ks && AddTokens(p.tokens, ks) == tokens
    requires Code(tokens, 0, INSTRUMENT_MAGIC, ks) == code
    ensures Register(p, INSTRUMENT_MAGIC, Base(text)) == Parser(tokens, p.codes, code)
  {
  }

  // A new tree base.
  lemma BaseStep(p: Parser, n: nat, text: string)
    requires n < 15 && p.tokens == TABLE[..n] && text != [] && Keywords(text) == Typed([TABLE[n]], false)
    ensures Register(p, INSTRUMENT_MAGIC, Base(text)) == Parser(TABLE[..n + 1], p.codes, 16 * ROOT + n)
  {
    OneFilled(n, n, false);
    OneCode(n + 1, 0, 0, ROOT, n, false);
    BaseIs(p, text, Typed([TABLE[n]], false), TABLE[..n + 1], 16 * ROOT + n);
  }

  // A command of one keyword, under the base that ends on tokens a and b,
  lemma OneStep(p: Parser, n: nat, a: nat, b: nat, text: string, i: nat, query: bool)
    requires Addable(n, i) && p.tokens == TABLE[..n] && Keywords(text) == Typed([TABLE[i]], query)
    requires Start(p.tree) == 16 * a + b && a < 16 && b < 16
    ensures Register(p, INSTRUMENT_MAGIC, Command(text)) ==
            Parser(TABLE[..Filled(n, i)], p.codes + [Final(16 * b + i, query)], p.tree)
  {
    OneFilled(n, i, query);
    OneCode(Filled(n, i), p.tree, a, b, i, query);
    CommandIs(p, text, Typed([TABLE[i]], query), TABLE[..Filled(n, i)], Final(16 * b + i, query));
  }

  // and one of two.
  lemma TwoStep(p: Parser, n: nat, a: nat, b: nat, text: string, i: nat, j: nat, query: bool)
    requires Addable(n, i) && Addable(Filled(n, i), j) && p.tokens == TABLE[..n]
    requires Keywords(text) == Typed([TABLE[i], TABLE[j]], query)
    requires Start(p.tree) == 16 * a + b && a < 16 && b < 16
    ensures Register(p, INSTRUMENT_MAGIC, Command(text)) ==
            Parser(TABLE[..Filled(Filled(n, i), j)], p.codes + [Final(16 * i + j, query)], p.tree)
  {
    var m := Filled(Filled(n, i), j);
    TwoFilled(n, i, j, query);
    TwoCode(m, p.tree, a, b, i, j, query);
    CommandIs(p, text, Typed([TABLE[i], TABLE[j]], query), TABLE[..m], Final(16 * i + j, query));
  }

  // ------------------------------------------------------------- the texts of the calls

  function Asked(h: string, query: bool): string { if query then h + "?" else h }

  lemma PlainText(ks: seq<string>, colon: bool)
    requires 1 <= |ks| <= MAX_KEYWORDS && forall i :: 0 <= i < |ks| ==> Plain(ks[i])
    ensures Keywords(if colon then ":" + Join(ks) else Join(ks)) == ks
  {
    KeywordsOfText("", colon, ks, "");
    var body := if colon then ":" + Join(ks) else Join(ks);
    assert "" + (body + "") == body;
  }

  lemma AskedPlain(h: string, query: bool)
    requires Plain(h)
    ensures Plain(Asked(h, query))
  {
  }

  lemma OneText(h: string, query: bool, colon: bool)
    requires Plain(h)
    ensures Keywords((if colon then ":" else "") + Asked(h, query)) == Typed([h], query)
  {
    AskedPlain(h, query);
    TypedOne(h, query);
    PlainText([Asked(h, query)], colon);
    assert "" + Asked(h, query) == Asked(h, query);
  }

  lemma TwoText(g: string, h: string, query: bool, colon: bool)
    requires Plain(g) && Plain(h)
    ensures Keywords((if colon then ":" else "") + (g + (":" + Asked(h, query)))) == Typed([g, h], query)
  {
    AskedPlain(h, query);
    TypedTwo(g, h, query);
    var ks := [g, Asked(h, query)];
    PlainText(ks, colon);
    assert ks[1..] == [Asked(h, query)];
    assert Join(ks) == g + ":" + Asked(h, query) == g + (":" + Asked(h, query));
    assert "" + Join(ks) == Join(ks);
  }

  // A tree base ends in a colon.
  lemma BaseText(h: string)
    requires Plain(h)
    ensures Keywords(h + ":") == Typed([h], false) && h + ":" != []
  {
    var s := h + ":";
    TypedOne(h, false);
    TrimPad("", s);
    assert "" + s == s;
    HeaderPart(s, "");
    assert s + "" == s;
    PieceGrows([], h, ":");
    assert [] + h == h;
    assert ":"[1..] == "";
  }

  lemma OneLiteral(i: nat, query: bool, colon: bool, s: string)
    requires i < 15 && s == (if colon then ":" else "") + Asked(TABLE[i], query)
    ensures Keywords(s) == Typed([TABLE[i]], query)
  {
    WordAt(i);
    OneText(TABLE[i], query, colon);
  }

  lemma TwoLiteral(i: nat, j: nat, query: bool, colon: bool, s: string)
    requires i < 15 && j < 15 && s == (if colon then ":" else "") + (TABLE[i] + (":" + Asked(TABLE[j], query)))
    ensures Keywords(s) == Typed([TABLE[i], TABLE[j]], query)
  {
    WordAt(i);
    WordAt(j);
    TwoText(TABLE[i], TABLE[j], query, colon);
  }

  lemma BaseLiteral(i: nat, s: string)
    requires i < 15 && s == TABLE[i] + ":"
    ensures Keywords(s) == Typed([TABLE[i]], false)
  {
    WordAt(i);
    BaseText(TABLE[i]);
  }

  lemma IdnText(i: nat)
    requires i == 0
    ensures SETUP[i].Command? && Keywords(SETUP[i].text) == Typed([TABLE[0]], true)
  {
    OneLiteral(0, true, false, SETUP[i].text);
  }

  lemma ErrText(i: nat)
    requires i == 1
    ensures SETUP[i].Command? && Keywords(SETUP[i].text) == Typed([TABLE[1], TABLE[2]], true)
  {
    TwoLiteral(1, 2, true, false, SETUP[i].text);
  }

  lemma SystemText(i: nat)
    requires i == 2
    ensures SETUP[i].Base? && Keywords(SETUP[i].text) == Typed([TABLE[3]], false)
  {
    BaseLiteral(3, SETUP[i].text);
  }

  lemma FinText(i: nat)
    requires i == 3
    ensures SETUP[i].Command? && Keywords(SETUP[i].text) == Typed([TABLE[4], TABLE[5]], true)
  {
    TwoLiteral(4, 5, true, true, SETUP[i].text);
  }

  lemma SysText(i: nat)
    requires i == 4
    ensures SETUP[i].Command? && Keywords(SETUP[i].text) == Typed([TABLE[4], TABLE[6]], true)
  {
    TwoLiteral(4, 6, true, true, SETUP[i].text);
  }

  lemma SourceText(i: nat)
    requires i == 5
    ensures SETUP[i].Base? && Keywords(SETUP[i].text) == Typed([TABLE[7]], false)
  {
    BaseLiteral(7, SETUP[i].text);
  }

  lemma VoltText(i: nat)
    requires i == 6
    ensures SETUP[i].Command? && Keywords(SETUP[i].text) == Typed([TABLE[8]], false)
  {
    OneLiteral(8, false, true, SETUP[i].text);
  }

  lemma CurrText(i: nat)
    requires i == 7
    ensures SETUP[i].Command? && Keywords(SETUP[i].text) == Typed([TABLE[9]], false)
  {
    OneLiteral(9, false, true, SETUP[i].text);
  }

  lemma VlimText(i: nat)
    requires i == 8
    ensures SETUP[i].Command? && Keywords(SETUP[i].text) == Typed([TABLE[9], TABLE[10]], false)
  {
    TwoLiteral(9, 10, false, true, SETUP[i].text);
  }

  lemma IlimText(i: nat)
    requires i == 9
    ensures SETUP[i].Command? && Keywords(SETUP[i].text) == Typed([TABLE[8], TABLE[11]], false)
  {
    TwoLiteral(8, 11, false, true, SETUP[i].text);
  }

  lemma SetGainText(i: nat)
    requires i == 10
    ensures SETUP[i].Command? && Keywords(SETUP[i].text) == Typed([TABLE[12]], false)
  {
    OneLiteral(12, false, true, SETUP[i].text);
  }

  lemma MeasureText(i: nat)
    requires i == 11
    ensures SETUP[i].Base? && Keywords(SETUP[i].text) == Typed([TABLE[13]], false)
  {
    BaseLiteral(13, SETUP[i].text);
  }

  lemma VoltAskedText(i: nat)
    requires i == 12
    ensures SETUP[i].Command? && Keywords(SETUP[i].text) == Typed([TABLE[8]], true)
  {
    OneLiteral(8, true, true, SETUP[i].text);
  }

  lemma CurrAskedText(i: nat)
    requires i == 13
    ensures SETUP[i].Command? && Keywords(SETUP[i].text) == Typed([TABLE[9]], true)
  {
    OneLiteral(9, true, true, SETUP[i].text);
  }

  lemma GetGainText(i: nat)
    requires i == 14
    ensures SETUP[i].Command? && Keywords(SETUP[i].text) == Typed([TABLE[14]], true)
  {
    OneLiteral(14, true, true, SETUP[i].text);
  }

  // ------------------------------------------------------------------- the set-up

  // What is there after each call: tokens, codes and tree base.
  const FILLED: seq<nat> := [0, 1, 3, 4, 6, 7, 8, 9, 10, 11, 12, 13, 14, 14, 14, 15]
  const COUNTS: seq<nat> := [0, 1, 2, 2, 3, 4, 4, 5, 6, 7, 8, 9, 9, 10, 11, 12]
  const TREES: seq<nat> := [0, 0, 0, 115, 115, 115, 119, 119, 119, 119, 119, 119, 125, 125, 125, 125]

  function State(i: nat): Parser
    requires i <= 15
  {
    Parser(TABLE[..FILLED[i]], CODES[..COUNTS[i]], TREES[i])
  }

  lemma QueryCodes()
    ensures Final(112, true) == 47 && Final(18, true) == 153 && Final(69, true) == 248 && Final(70, true) == 29
    ensures Final(216, true) == 55 && Final(217, true) == 92 && Final(222, true) == 21
  {
    ToByteIs(112 * 37 + 255);
    ToByteIs(18 * 37 + 255);
    ToByteIs(69 * 37 + 255);
    ToByteIs(70 * 37 + 255);
    ToByteIs(216 * 37 + 255);
    ToByteIs(217 * 37 + 255);
    ToByteIs(222 * 37 + 255);
  }

  lemma NextCode(k: nat)
    requires k < 12
    ensures CODES[..k] + [CODES[k]] == CODES[..k + 1]
  {
  }

  // The state after a call with one more code.
  predicate CodeNext(k: nat, m: nat, code: nat) {
    && k < 15 && FILLED[k + 1] == m && COUNTS[k] < 12 && COUNTS[k + 1] == COUNTS[k] + 1
    && CODES[COUNTS[k]] == code && TREES[k + 1] == TREES[k]
  }

  // Token i, or tokens i and j, under the base that ends on a and b, make call k.
  predicate OneFits(k: nat, n: nat, a: nat, b: nat, i: nat, query: bool) {
    && Addable(n, i) && CodeNext(k, Filled(n, i), Final(16 * b + i, query)) && FILLED[k] == n
    && Start(TREES[k]) == 16 * a + b && a < 16 && b < 16
  }

  predicate TwoFits(k: nat, n: nat, a: nat, b: nat, i: nat, j: nat, query: bool) {
    && Addable(n, i) && Addable(Filled(n, i), j)
    && CodeNext(k, Filled(Filled(n, i), j), Final(16 * i + j, query)) && FILLED[k] == n
    && Start(TREES[k]) == 16 * a + b && a < 16 && b < 16
  }

  predicate BaseFits(k: nat, n: nat) {
    && k < 15 && n < 15 && FILLED[k] == n && FILLED[k + 1] == n + 1 && COUNTS[k + 1] == COUNTS[k]
    && TREES[k + 1] == 16 * ROOT + n
  }

  lemma OneReaches(k: nat, n: nat, a: nat, b: nat, s: string, i: nat, query: bool)
    requires OneFits(k, n, a, b, i, query) && Keywords(s) == Typed([TABLE[i]], query)
    ensures Register(State(k), INSTRUMENT_MAGIC, Command(s)) == State(k + 1)
  {
    OneStep(State(k), n, a, b, s, i, query);
    NextCode(COUNTS[k]);
  }

  lemma TwoReaches(k: nat, n: nat, a: nat, b: nat, s: string, i: nat, j: nat, query: bool)
    requires TwoFits(k, n, a, b, i, j, query) && Keywords(s) == Typed([TABLE[i], TABLE[j]], query)
    ensures Register(State(k), INSTRUMENT_MAGIC, Command(s)) == State(k + 1)
  {
    TwoStep(State(k), n, a, b, s, i, j, query);
    NextCode(COUNTS[k]);
  }

  lemma BaseReaches(k: nat, n: nat, s: string)
    requires BaseFits(k, n) && s != [] && Keywords(s) == Typed([TABLE[n]], false)
    ensures Register(State(k), INSTRUMENT_MAGIC, Base(s)) == State(k + 1)
  {
    BaseStep(State(k), n, s);
  }

  lemma IdnFits()
    ensures OneFits(0, 0, 0, 7, 0, true)
  {
    QueryCodes();
  }

  lemma ErrFits()
    ensures TwoFits(1, 1, 0, 7, 1, 2, true)
  {
    QueryCodes();
  }

  lemma SystemFits()
    ensures BaseFits(2, 3)
  {
  }

  lemma FinFits()
    ensures TwoFits(3, 4, 7, 3, 4, 5, true)
  {
    QueryCodes();
  }

  lemma SysFits()
    ensures TwoFits(4, 6, 7, 3, 4, 6, true)
  {
    QueryCodes();
  }

  lemma SourceFits()
    ensures BaseFits(5, 7)
  {
  }

  lemma VoltFits()
    ensures OneFits(6, 8, 7, 7, 8, false)
  {
  }

  lemma CurrFits()
    ensures OneFits(7, 9, 7, 7, 9, false)
  {
  }

  lemma VlimFits()
    ensures TwoFits(8, 10, 7, 7, 9, 10, false)
  {
  }

  lemma IlimFits()
    ensures TwoFits(9, 11, 7, 7, 8, 11, false)
  {
  }

  lemma SetGainFits()
    ensures OneFits(10, 12, 7, 7, 12, false)
  {
  }

  lemma MeasureFits()
    ensures BaseFits(11, 13)
  {
  }

  lemma VoltAskedFits()
    ensures OneFits(12, 14, 7, 13, 8, true)
  {
    QueryCodes();
  }

  lemma CurrAskedFits()
    ensures OneFits(13, 14, 7, 13, 9, true)
  {
    QueryCodes();
  }

  lemma GetGainFits()
    ensures OneFits(14, 14, 7, 13, 14, true)
  {
    QueryCodes();
  }

  lemma IdnStep(i: nat)
    requires i == 0
    ensures Register(State(i), INSTRUMENT_MAGIC, SETUP[i]) == State(i + 1)
  {
    var s := SETUP[i].text;
    IdnText(i);
    IdnFits();
    OneReaches(i, 0, 0, 7, s, 0, true);
  }

  lemma ErrStep(i: nat)
    requires i == 1
    ensures Register(State(i), INSTRUMENT_MAGIC, SETUP[i]) == State(i + 1)
  {
    var s := SETUP[i].text;
    ErrText(i);
    ErrFits();
    TwoReaches(i, 1, 0, 7, s, 1, 2, true);
  }

  lemma SystemStep(i: nat)
    requires i == 2
    ensures Register(State(i), INSTRUMENT_MAGIC, SETUP[i]) == State(i + 1)
  {
    var s := SETUP[i].text;
    SystemText(i);
    SystemFits();
    BaseReaches(i, 3, s);
  }

  lemma FinStep(i: nat)
    requires i == 3
    ensures Register(State(i), INSTRUMENT_MAGIC, SETUP[i]) == State(i + 1)
  {
    var s := SETUP[i].text;
    FinText(i);
    FinFits();
    TwoReaches(i, 4, 7, 3, s, 4, 5, true);
  }

  lemma SysStep(i: nat)
    requires i == 4
    ensures Register(State(i), INSTRUMENT_MAGIC, SETUP[i]) == State(i + 1)
  {
    var s := SETUP[i].text;
    SysText(i);
    SysFits();
    TwoReaches(i, 6, 7, 3, s, 4, 6, true);
  }

  lemma SourceStep(i: nat)
    requires i == 5
    ensures Register(State(i), INSTRUMENT_MAGIC, SETUP[i]) == State(i + 1)
  {
    var s := SETUP[i].text;
    SourceText(i);
    SourceFits();
    BaseReaches(i, 7, s);
  }

  lemma VoltStep(i: nat)
    requires i == 6
    ensures Register(State(i), INSTRUMENT_MAGIC, SETUP[i]) == State(i + 1)
  {
    var s := SETUP[i].text;
    VoltText(i);
    VoltFits();
    OneReaches(i, 8, 7, 7, s, 8, false);
  }

  lemma CurrStep(i: nat)
    requires i == 7
    ensures Register(State(i), INSTRUMENT_MAGIC, SETUP[i]) == State(i + 1)
  {
    var s := SETUP[i].text;
    CurrText(i);
    CurrFits();
    OneReaches(i, 9, 7, 7, s, 9, false);
  }

  lemma VlimStep(i: nat)
    requires i == 8
    ensures Register(State(i), INSTRUMENT_MAGIC, SETUP[i]) == State(i + 1)
  {
    var s := SETUP[i].text;
    VlimText(i);
    VlimFits();
    TwoReaches(i, 10, 7, 7, s, 9, 10, false);
  }

  lemma IlimStep(i: nat)
    requires i == 9
    ensures Register(State(i), INSTRUMENT_MAGIC, SETUP[i]) == State(i + 1)
  {
    var s := SETUP[i].text;
    IlimText(i);
    IlimFits();
    TwoReaches(i, 11, 7, 7, s, 8, 11, false);
  }

  lemma SetGainStep(i: nat)
    requires i == 10
    ensures Register(State(i), INSTRUMENT_MAGIC, SETUP[i]) == State(i + 1)
  {
    var s := SETUP[i].text;
    SetGainText(i);
    SetGainFits();
    OneReaches(i, 12, 7, 7, s, 12, false);
  }

  lemma MeasureStep(i: nat)
    requires i == 11
    ensures Register(State(i), INSTRUMENT_MAGIC, SETUP[i]) == State(i + 1)
  {
    var s := SETUP[i].text;
    MeasureText(i);
    MeasureFits();
    BaseReaches(i, 13, s);
  }

  lemma VoltAskedStep(i: nat)
    requires i == 12
    ensures Register(State(i), INSTRUMENT_MAGIC, SETUP[i]) == State(i + 1)
  {
    var s := SETUP[i].text;
    VoltAskedText(i);
    VoltAskedFits();
    OneReaches(i, 14, 7, 13, s, 8, true);
  }

  lemma CurrAskedStep(i: nat)
    requires i == 13
    ensures Register(State(i), INSTRUMENT_MAGIC, SETUP[i]) == State(i + 1)
  {
    var s := SETUP[i].text;
    CurrAskedText(i);
    CurrAskedFits();
    OneReaches(i, 14, 7, 13, s, 9, true);
  }

  lemma GetGainStep(i: nat)
    requires i == 14
    ensures Register(State(i), INSTRUMENT_MAGIC, SETUP[i]) == State(i + 1)
  {
    var s := SETUP[i].text;
    GetGainText(i);
    GetGainFits();
    OneReaches(i, 14, 7, 13, s, 14, true);
  }

  lemma RootSteps(i: nat)
    requires 0 <= i < 5
    ensures Register(State(i), INSTRUMENT_MAGIC, SETUP[i]) == State(i + 1)
  {
    match i
    case 0 => IdnStep(i);
    case 1 => ErrStep(i);
    case 2 => SystemStep(i);
    case 3 => FinStep(i);
    case _ => SysStep(i);
  }

  lemma SourceSteps(i: nat)
    requires 5 <= i < 11
    ensures Register(State(i), INSTRUMENT_MAGIC, SETUP[i]) == State(i + 1)
  {
    match i
    case 5 => SourceStep(i);
    case 6 => VoltStep(i);
    case 7 => CurrStep(i);
    case 8 => VlimStep(i);
    case 9 => IlimStep(i);
    case _ => SetGainStep(i);
  }

  lemma MeasureSteps(i: nat)
    requires 11 <= i < 15
    ensures Register(State(i), INSTRUMENT_MAGIC, SETUP[i]) == State(i + 1)
  {
    match i
    case 11 => MeasureStep(i);
    case 12 => VoltAskedStep(i);
    case 13 => CurrAskedStep(i);
    case _ => GetGainStep(i);
  }

  lemma EveryStep(i: nat)
    requires i < 15
    ensures Register(State(i), INSTRUMENT_MAGIC, SETUP[i]) == State(i + 1)
  {
    if i < 5 { RootSteps(i); } else if i < 11 { SourceSteps(i); } else { MeasureSteps(i); }
  }

  lemma {:induction false} SetupFrom(calls: seq<Registration>, i: nat)
    requires calls == SETUP && i <= 15
    ensures RegisterAll(State(i), INSTRUMENT_MAGIC, calls[i..]) == State(15)
    decreases 15 - i
  {
    if i < 15 {
      EveryStep(i);
      SetupFrom(calls, i + 1);
      RestOfSetup(calls, i);
    }
  }

  lemma RestOfSetup(rs: seq<Registration>, i: nat)
    requires i < |rs|
    ensures rs[i..] != [] && rs[i..][0] == rs[i] && rs[i..][1..] == rs[i + 1..]
  {
  }

  // The table and the codes are what the set-up makes of an empty parser.
  lemma SetupLeaves(calls: seq<Registration>)
    requires calls == SETUP
    ensures RegisterAll(Parser([], [], 0), INSTRUMENT_MAGIC, calls) == Parser(TABLE, CODES, 125)
  {
    SetupFrom(calls, 0);
    assert calls[0..] == calls;
    Ends();
  }

  lemma Ends()
    ensures State(0) == Parser([], [], 0) && State(15) == Parser(TABLE, CODES, 125)
  {
    assert TABLE[..15] == TABLE && CODES[..12] == CODES;
  }

  // -------------------------------------------------- commands that run another's handler

  // A short form: capitals before the first letter that is none.
  predicate IsShort(h: string, token: string) {
    2 <= |h| && h < token && !IsUpper(token[|h|]) && forall k :: 0 <= k < |h| ==> IsUpper(h[k])
  }

  lemma ShortSelects(tokens: seq<string>, firsts: string, seconds: string, h: string, j: nat)
    requires Heads(tokens, firsts, seconds) && j < |tokens| && IsShort(h, tokens[j]) && NewHead(firsts, seconds, j)
    ensures FirstFrom(tokens, h, 0) == Some(j)
  {
    ShortIs(tokens[j], |h|);
    UpperIs(h, h);
    forall k | 0 <= k < j ensures !Spells(h, tokens[k]) {
      Differs(h, tokens[k], if ToUpper(firsts[k]) != ToUpper(firsts[j]) then 0 else 1);
    }
    PlainFirst(tokens, h, j);
  }

  predicate PicksOne(h: string, j: nat) { j < 15 && FirstFrom(TABLE, h, 0) == Some(j) }

  predicate Picks(hs: seq<string>, js: seq<nat>) {
    |hs| == |js| && forall k :: 0 <= k < |hs| ==> PicksOne(hs[k], js[k])
  }

  lemma {:induction false} PickedIndices(hs: seq<string>, js: seq<nat>)
    requires Picks(hs, js)
    ensures Indices(TABLE, hs) == Some(js)
    decreases |hs|
  {
    if hs != [] {
      assert PicksOne(hs[0], js[0]);
      PickedIndices(hs[1..], js[1..]);
      IndicesCons(TABLE, hs[0], hs[1..], js[0], js[1..]);
      assert hs == [hs[0]] + hs[1..] && js == [js[0]] + js[1..];
    }
  }

  predicate Distinct(codes: seq<nat>) {
    forall i, k :: 0 <= i < k < |codes| ==> codes[i] != codes[k]
  }

  lemma CodesDistinct()
    ensures Distinct(CODES)
  {
  }

  // The handler a command in short forms runs.
  lemma PickedRuns(s: string, hs: seq<string>, js: seq<nat>, k: nat)
    requires 1 <= |hs| <= MAX_KEYWORDS && Picks(hs, js) && (forall i :: 0 <= i < |hs| ==> Word(hs[i]))
    requires s == Join(hs) && k < 12 && CODES[k] == PairCode(Path(js))
    ensures Selected(TABLE, CODES, INSTRUMENT_MAGIC, s) == Some(k)
  {
    PlainText(hs, false);
    NoQuery(hs);
    PickedIndices(hs, js);
    var p := PathCode(TABLE, hs, js);
    CodesDistinct();
    FirstCodeIs(CODES, p, k);
  }

  predicate ShortOf(h: string, j: nat) { j < 15 && j != 3 && j != 6 && IsShort(h, TABLE[j]) }

  lemma ShortFor(h: string, j: nat)
    requires ShortOf(h, j)
    ensures FirstFrom(TABLE, h, 0) == Some(j) && Word(h)
  {
    TableHeads();
    NewHeads(j);
    WordAt(j);
    ShortSelects(TABLE, FIRSTS, SECONDS, h, j);
    ShortWord(h, TABLE[j]);
  }

  lemma ShortWord(h: string, token: string)
    requires IsShort(h, token) && Word(token)
    ensures Word(h)
  {
    forall i | 0 <= i < |h| ensures h[i] != ':' && !IsSpace(h[i]) { assert h[i] == token[i]; }
  }

  lemma JoinTwo(a: string, b: string)
    ensures Join([a]) == a && Join([a, b]) == a + ":" + b
  {
    assert [a, b][1..] == [b];
  }

  lemma JoinThree(a: string, b: string, c: string)
    ensures Join([a, b, c]) == a + ":" + (b + ":" + c)
  {
    assert [a, b, c][1..] == [b, c];
    JoinTwo(b, c);
  }

  lemma PickMore(h: string, j: nat, hs: seq<string>, js: seq<nat>)
    requires ShortOf(h, j) && Picks(hs, js)
    ensures Picks([h] + hs, [j] + js) && Word(h)
  {
    ShortFor(h, j);
    MorePicks(h, j, hs, js);
  }

  lemma MorePicks(h: string, j: nat, hs: seq<string>, js: seq<nat>)
    requires PicksOne(h, j) && Picks(hs, js)
    ensures Picks([h] + hs, [j] + js)
  {
    var gs, ks := [h] + hs, [j] + js;
    forall k | 0 <= k < |gs| ensures PicksOne(gs[k], ks[k]) {
      if k > 0 { assert PicksOne(hs[k - 1], js[k - 1]); }
    }
  }

  lemma PickOne(h: string, j: nat)
    requires ShortOf(h, j)
    ensures Picks([h], [j]) && Word(h) && PairCode(Path([j])) == 16 * ROOT + j
  {
    PickMore(h, j, [], []);
    assert [h] + [] == [h] && [j] + [] == [j];
    OnePath(j);
  }

  lemma OnePath(j: nat)
    ensures PairCode(Path([j])) == 16 * ROOT + j
  {
    assert Path([j]) == [0, ROOT, j];
  }

  lemma PickTwo(g: string, h: string, i: nat, j: nat)
    requires ShortOf(g, i) && ShortOf(h, j)
    ensures Picks([g, h], [i, j]) && Word(g) && Word(h) && PairCode(Path([i, j])) == 16 * i + j
  {
    PickOne(h, j);
    PickMore(g, i, [h], [j]);
    TwoOf(g, h);
    TwoOf(i, j);
    TwoPath(i, j);
  }

  lemma TwoPath(i: nat, j: nat)
    ensures PairCode(Path([i, j])) == 16 * i + j
  {
    assert Path([i, j]) == [0, ROOT, i, j];
  }

  lemma PickThree(f: string, g: string, h: string, m: nat, i: nat, j: nat)
    requires ShortOf(f, m) && ShortOf(g, i) && ShortOf(h, j)
    ensures Picks([f, g, h], [m, i, j]) && Word(f) && Word(g) && Word(h)
    ensures PairCode(Path([m, i, j])) == 16 * i + j
  {
    PickTwo(g, h, i, j);
    PickMore(f, m, [g, h], [i, j]);
    ThreeOf(f, g, h);
    ThreeOf(m, i, j);
    ThreePath(m, i, j);
  }

  lemma ThreePath(m: nat, i: nat, j: nat)
    ensures PairCode(Path([m, i, j])) == 16 * i + j
  {
    assert Path([m, i, j]) == [0, ROOT, m, i, j];
  }

  lemma TwoOf<T>(x: T, y: T)
    ensures [x] + [y] == [x, y]
  {
  }

  lemma ThreeOf<T>(x: T, y: T, z: T)
    ensures [x] + [y, z] == [x, y, z]
  {
  }

  lemma OneRuns(s: string, h: string, j: nat, k: nat)
    requires ShortOf(h, j) && s == h && k < 12 && CODES[k] == 16 * ROOT + j
    ensures Selected(TABLE, CODES, INSTRUMENT_MAGIC, s) == Some(k)
  {
    PickOne(h, j);
    JoinTwo(h, h);
    PickedRuns(s, [h], [j], k);
  }

  lemma TwoRuns(s: string, g: string, h: string, i: nat, j: nat, k: nat)
    requires ShortOf(g, i) && ShortOf(h, j) && s == g + ":" + h && k < 12 && CODES[k] == 16 * i + j
    ensures Selected(TABLE, CODES, INSTRUMENT_MAGIC, s) == Some(k)
  {
    PickTwo(g, h, i, j);
    JoinTwo(g, h);
    PickedRuns(s, [g, h], [i, j], k);
  }

  lemma ThreeRuns(s: string, f: string, g: string, h: string, m: nat, i: nat, j: nat, k: nat)
    requires ShortOf(f, m) && ShortOf(g, i) && ShortOf(h, j) && s == f + ":" + (g + ":" + h)
    requires k < 12 && CODES[k] == 16 * i + j
    ensures Selected(TABLE, CODES, INSTRUMENT_MAGIC, s) == Some(k)
  {
    PickThree(f, g, h, m, i, j);
    JoinThree(f, g, h);
    PickedRuns(s, [f, g, h], [m, i, j], k);
  }

  lemma Sour() returns (h: string)
    ensures h == "SOUR" && ShortOf(h, 7)
  {
    h := "SOUR";
  }

  lemma Volt() returns (h: string)
    ensures h == "VOLT" && ShortOf(h, 8)
  {
    h := "VOLT";
  }

  lemma Curr() returns (h: string)
    ensures h == "CURR" && ShortOf(h, 9)
  {
    h := "CURR";
  }

  lemma Setg() returns (h: string)
    ensures h == "SETG" && ShortOf(h, 12)
  {
    h := "SETG";
  }

  lemma Meas() returns (h: string)
    ensures h == "MEAS" && ShortOf(h, 13)
  {
    h := "MEAS";
  }

  lemma Ilim() returns (h: string)
    ensures h == "ILIM" && ShortOf(h, 11)
  {
    h := "ILIM";
  }

  // VOLT alone, which is no command, sets the source voltage, as SOUR:VOLT does: both run
  // the fifth handler, that of :VOLTage under SOURce.
  lemma VoltAloneSets(s: string, t: string)
    requires s == "VOLT" && t == "SOUR:VOLT"
    ensures Selected(TABLE, CODES, INSTRUMENT_MAGIC, s) == Selected(TABLE, CODES, INSTRUMENT_MAGIC, t) == Some(4)
  {
    VoltRuns(s);
    SourVoltRuns(t);
  }

  lemma VoltRuns(s: string)
    requires s == "VOLT"
    ensures Selected(TABLE, CODES, INSTRUMENT_MAGIC, s) == Some(4)
  {
    var volt := Volt();
    OneRuns(s, volt, 8, 4);
  }

  lemma SourVoltRuns(s: string)
    requires s == "SOUR:VOLT"
    ensures Selected(TABLE, CODES, INSTRUMENT_MAGIC, s) == Some(4)
  {
    var sour := Sour();
    var volt := Volt();
    TwoRuns(s, sour, volt, 7, 8, 4);
  }

  // CURR and SETG alone do likewise.
  lemma CurrAloneSets(s: string)
    requires s == "CURR"
    ensures Selected(TABLE, CODES, INSTRUMENT_MAGIC, s) == Some(5)
  {
    var curr := Curr();
    OneRuns(s, curr, 9, 5);
  }

  lemma SetgAloneSets(s: string)
    requires s == "SETG"
    ensures Selected(TABLE, CODES, INSTRUMENT_MAGIC, s) == Some(8)
  {
    var setg := Setg();
    OneRuns(s, setg, 12, 8);
  }

  // MEAS:VOLT:ILIM, which is no command either, sets the current limit, as SOUR:VOLT:ILIM
  // does.
  lemma MeasureSetsLimit(s: string, t: string)
    requires s == "MEAS:VOLT:ILIM" && t == "SOUR:VOLT:ILIM"
    ensures Selected(TABLE, CODES, INSTRUMENT_MAGIC, s) == Selected(TABLE, CODES, INSTRUMENT_MAGIC, t) == Some(7)
  {
    MeasIlimRuns(s);
    SourIlimRuns(t);
  }

  lemma MeasIlimRuns(s: string)
    requires s == "MEAS:VOLT:ILIM"
    ensures Selected(TABLE, CODES, INSTRUMENT_MAGIC, s) == Some(7)
  {
    var meas := Meas();
    var volt := Volt();
    var ilim := Ilim();
    ThreeRuns(s, meas, volt, ilim, 13, 8, 11, 7);
  }

  lemma SourIlimRuns(s: string)
    requires s == "SOUR:VOLT:ILIM"
    ensures Selected(TABLE, CODES, INSTRUMENT_MAGIC, s) == Some(7)
  {
    var sour := Sour();
    var volt := Volt();
    var ilim := Ilim();
    ThreeRuns(s, sour, volt, ilim, 7, 8, 11, 7);
  }

  // And CURR:CURR, a command, runs the handler of the query SYST:ERR?.
  lemma CurrentAnswersError(s: string)
    requires s == "CURR:CURR"
    ensures Selected(TABLE, CODES, INSTRUMENT_MAGIC, s) == Some(1) && SETUP[1] == Command("SYST:ERR?")
  {
    var curr := Curr();
    TwoRuns(s, curr, curr, 9, 9, 1);
  }
}
