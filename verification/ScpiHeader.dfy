// SCPI command headers: cut into keywords, matched against the stored tokens in short or
// long form, and hashed into one byte that selects the handler.
module ScpiHeader {
  import opened Options
  import opened Modular

  const MAX_KEYWORDS := 6
  const MAX_TOKENS := 15
  const MAX_COMMANDS := 20
  const ROOT := 7
  const UNKNOWN := 255

  // ------------------------------------------------------------------- characters

  predicate IsUpper(c: char) { 'A' <= c <= 'Z' }

  function ToUpper(c: char): char { if 'a' <= c <= 'z' then (c as int - 32) as char else c }

  predicate IsSpace(c: char) { c == ' ' || '\t' <= c <= '\r' }

  predicate IsDigit(c: char) { '0' <= c <= '9' }

  predicate IsBlank(c: char) { c == ' ' || c == '\t' }

  // The classes by their ASCII codes.
  lemma Characters(c: char)
    ensures IsUpper(c) <==> 65 <= c as int <= 90
    ensures ToUpper(c) as int == c as int - if 97 <= c as int <= 122 then 32 else 0
    ensures IsDigit(c) <==> 48 <= c as int <= 57
    ensures IsSpace(c) <==> c as int in {9, 10, 11, 12, 13, 32}
    ensures IsBlank(c) <==> c as int in {9, 32}
  {
  }

  function Upper(s: string): (u: string)
    ensures |u| == |s|
  {
    if s == [] then [] else [ToUpper(s[0])] + Upper(s[1..])
  }

  lemma {:induction false} UpperAt(s: string)
    ensures forall k :: 0 <= k < |s| ==> Upper(s)[k] == ToUpper(s[k])
  {
    if s != [] {
      UpperAt(s[1..]);
      forall k | 0 <= k < |s| ensures Upper(s)[k] == ToUpper(s[k]) {
        if k > 0 { assert s[k] == s[1..][k - 1] && Upper(s)[k] == Upper(s[1..])[k - 1]; }
      }
    }
  }

  // ------------------------------------------------------------ cutting a message

  function TrimLeft(s: string): string {
    if s != [] && IsSpace(s[0]) then TrimLeft(s[1..]) else s
  }

  function UpToBlank(s: string): string {
    if s == [] || IsBlank(s[0]) then [] else [s[0]] + UpToBlank(s[1..])
  }

  // The non-empty pieces between colons; cur is the piece begun.
  function Pieces(cur: string, s: string): seq<string>
    decreases |s|
  {
    if s == [] then if cur == [] then [] else [cur]
    else if s[0] == ':' then (if cur == [] then [] else [cur]) + Pieces([], s[1..])
    else Pieces(cur + [s[0]], s[1..])
  }

  // The keywords of a message; those beyond the sixth are not stored.
  function Keywords(message: string): (ks: seq<string>)
    ensures |ks| <= MAX_KEYWORDS
  {
    var ks := Pieces([], UpToBlank(TrimLeft(message)));
    if |ks| <= MAX_KEYWORDS then ks else ks[..MAX_KEYWORDS]
  }

  // ---------------------------------------------------------------- short and long

  function ShortLength(token: string): (n: nat)
    ensures n <= |token|
  {
    if token != [] && IsUpper(token[0]) then 1 + ShortLength(token[1..]) else 0
  }

  lemma {:induction false} ShortCapitals(token: string)
    ensures forall k :: 0 <= k < ShortLength(token) ==> IsUpper(token[k])
    ensures ShortLength(token) < |token| ==> !IsUpper(token[ShortLength(token)])
  {
    if token != [] && IsUpper(token[0]) {
      ShortCapitals(token[1..]);
      forall k | 0 <= k < ShortLength(token) ensures IsUpper(token[k]) {
        if k > 0 { assert token[k] == token[1..][k - 1]; }
      }
    }
  }

  function Short(token: string): string { token[..ShortLength(token)] }

  // A token that ends in # allows a numeric suffix.
  predicate EndsHash(s: string) { s != [] && s[|s| - 1] == '#' }

  function TrimDigits(h: string): (t: string)
    ensures t <= h && (t == [] || !IsDigit(t[|t| - 1]))
  {
    if h != [] && IsDigit(h[|h| - 1]) then TrimDigits(h[..|h| - 1]) else h
  }

  // What is left of a keyword, and the long form it is compared with, when a token is
  // tried.
  function Trimmed(header: string, token: string): string {
    if EndsHash(token) && !EndsHash(header) then TrimDigits(header) else header
  }

  function Long(header: string, token: string): string {
    if EndsHash(token) && !EndsHash(header) then token[..|token| - 1] else token
  }

  // A keyword is a token's short or long form, in any letter case, with any number after
  // it if the token ends in #.
  predicate Spells(header: string, token: string) {
    Upper(Trimmed(header, token)) == Short(token) || Upper(Trimmed(header, token)) == Upper(Long(header, token))
  }

  // The comparison as the code makes it, by length first.
  predicate Fits(h: string, token: string, long: string) {
    if |h| == ShortLength(token) then
      forall k :: 0 <= k < |h| ==> ToUpper(h[k]) == token[k]
    else
      |h| == |long| && forall k :: 0 <= k < |h| ==> ToUpper(h[k]) == ToUpper(long[k])
  }

  predicate Matches(header: string, token: string) {
    Fits(Trimmed(header, token), token, Long(header, token))
  }

  lemma UpperIs(header: string, form: string)
    ensures Upper(header) == form <==>
            |header| == |form| && forall k :: 0 <= k < |header| ==> ToUpper(header[k]) == form[k]
  {
    UpperAt(header);
  }

  lemma ShortWithin(header: string, token: string)
    ensures ShortLength(token) <= |Long(header, token)|
    ensures forall k :: 0 <= k < |Long(header, token)| ==> Long(header, token)[k] == token[k]
  {
    ShortCapitals(token);
    if EndsHash(token) { assert !IsUpper(token[|token| - 1]); }
  }

  lemma MatchIsSpelling(header: string, token: string)
    ensures Matches(header, token) <==> Spells(header, token)
  {
    var h, long := Trimmed(header, token), Long(header, token);
    UpperIs(h, Short(token));
    UpperIs(h, Upper(long));
    ShortWithin(header, token);
    ShortCapitals(token);
    if ShortLength(token) == |long| {
      UpperIs(long, long);
    }
    UpperAt(long);
  }

  // -------------------------------------------------------------------- the codes

  // What is left of a keyword when token j is reached: what was trimmed off it for one
  // token stays off for the next.
  function Left(tokens: seq<string>, header: string, j: nat): string
    requires j <= |tokens|
  {
    if j == 0 then header else Trimmed(Left(tokens, header, j - 1), tokens[j - 1])
  }

  // Token j is spelled by what is left of the keyword then.
  predicate Hits(tokens: seq<string>, header: string, j: nat)
    requires j < |tokens|
  {
    Spells(Left(tokens, header, j), tokens[j])
  }

  // The first token from j on that a keyword hits.
  function FirstFrom(tokens: seq<string>, header: string, j: nat): (r: Option<nat>)
    requires j <= |tokens|
    ensures r.Some? ==> j <= r.value < |tokens| && Hits(tokens, header, r.value)
    ensures forall k :: j <= k < (if r.Some? then r.value else |tokens|) ==> !Hits(tokens, header, k)
    decreases |tokens| - j
  {
    if j == |tokens| then None
    else if Hits(tokens, header, j) then Some(j)
    else FirstFrom(tokens, header, j + 1)
  }

  predicate Suffixed(tokens: seq<string>, j: nat)
    requires j <= |tokens|
  {
    exists i :: 0 <= i < j && EndsHash(tokens[i])
  }

  // The number at its end is off as soon as one token has allowed numbers.
  lemma {:induction false} LeftIs(tokens: seq<string>, header: string, j: nat)
    requires j <= |tokens|
    ensures Left(tokens, header, j) ==
            if Suffixed(tokens, j) && !EndsHash(header) then TrimDigits(header) else header
  {
    if j > 0 { LeftIs(tokens, header, j - 1); }
  }

  // The code is kept in a byte, which wraps.
  function ToByte(x: nat): (b: nat)
    ensures b < 256
  {
    if x < 256 then x else ToByte(x - 256)
  }

  lemma {:induction false} ToByteIs(x: nat)
    ensures ToByte(x) == x % 256
  {
    if x >= 256 { ToByteIs(x - 256); }
  }

  function Hash(code: nat, j: nat, magic: nat): nat { ToByte(code * magic + j) }

  function Horner(code: nat, js: seq<nat>, magic: nat): nat
    decreases |js|
  {
    if js == [] then code else Horner(Hash(code, js[0], magic), js[1..], magic)
  }

  function QueryCode(code: nat): nat { ToByte(code * 37 + 255) }

  function Final(code: nat, query: bool): nat { if query then QueryCode(code) else code }

  function Indices(tokens: seq<string>, headers: seq<string>): (r: Option<seq<nat>>)
    ensures r.Some? ==> |r.value| == |headers|
  {
    if headers == [] then Some([])
    else
      var j, rest := FirstFrom(tokens, headers[0], 0), Indices(tokens, headers[1..]);
      if j.Some? && rest.Some? then Some([j.value] + rest.value) else None
  }

  predicate IsQuery(commands: seq<string>) {
    commands != [] && var last := commands[|commands| - 1]; last != [] && last[|last| - 1] == '?'
  }

  // The keywords without the question mark.
  function Headers(commands: seq<string>): (hs: seq<string>)
    ensures |hs| == |commands|
  {
    if IsQuery(commands) then
      var n := |commands| - 1; commands[..n] + [commands[n][..|commands[n]| - 1]]
    else commands
  }

  function Start(treeCode: nat): nat { if treeCode != 0 then treeCode else ROOT }

  function Code(tokens: seq<string>, treeCode: nat, magic: nat, commands: seq<string>): nat {
    match Indices(tokens, Headers(commands))
    case None => UNKNOWN
    case Some(js) =>
      Final(Horner(Start(treeCode), js, magic), IsQuery(commands))
  }

  // ---------------------------------------------------- any spelling, one code

  // Two tokens have no form in common, the empty one aside.
  predicate Apart(s: string, t: string) {
    && (Short(s) != [] ==> Short(s) != Short(t) && Short(s) != Upper(t))
    && (Upper(s) != [] ==> Upper(s) != Short(t) && Upper(s) != Upper(t))
  }

  // No earlier token has a form in common with this one, and no number is ever taken off.
  predicate Clear(tokens: seq<string>, j: nat)
    requires j < |tokens|
  {
    !Suffixed(tokens, j + 1) && forall i :: 0 <= i < j ==> Apart(tokens[i], tokens[j])
  }

  predicate SpellOne(tokens: seq<string>, j: nat, h: string) {
    h != [] && j < |tokens| && Clear(tokens, j) && Spells(h, tokens[j])
  }

  // Keywords that spell the tokens with these numbers.
  predicate SpellAll(tokens: seq<string>, js: seq<nat>, hs: seq<string>) {
    |hs| == |js| && forall k :: 0 <= k < |hs| ==> SpellOne(tokens, js[k], hs[k])
  }

  lemma NotBoth(h: string, s: string, t: string)
    requires Apart(s, t) && h != [] && !EndsHash(s) && !EndsHash(t)
    ensures !(Spells(h, s) && Spells(h, t))
  {
    assert Upper(h) != [];
  }

  lemma FirstHit(tokens: seq<string>, h: string, j: nat)
    requires j < |tokens| && Hits(tokens, h, j) && forall i :: 0 <= i < j ==> !Hits(tokens, h, i)
    ensures FirstFrom(tokens, h, 0) == Some(j)
  {
  }

  // As long as no token allows numbers, hitting is spelling.
  lemma HitsPlain(tokens: seq<string>, h: string, i: nat)
    requires i < |tokens| && !Suffixed(tokens, i + 1)
    ensures Hits(tokens, h, i) <==> Spells(h, tokens[i])
    ensures !EndsHash(tokens[i])
  {
    LeftIs(tokens, h, i);
  }

  lemma SuffixedMore(tokens: seq<string>, i: nat, j: nat)
    requires i <= j <= |tokens| && !Suffixed(tokens, j)
    ensures !Suffixed(tokens, i)
  {
  }

  lemma FirstIsSpelled(tokens: seq<string>, h: string, j: nat)
    requires SpellOne(tokens, j, h)
    ensures FirstFrom(tokens, h, 0) == Some(j)
  {
    forall i | 0 <= i < j ensures !Hits(tokens, h, i) { MissesEarlier(tokens, h, i, j); }
    HitsPlain(tokens, h, j);
    FirstHit(tokens, h, j);
  }

  lemma MissesEarlier(tokens: seq<string>, h: string, i: nat, j: nat)
    requires SpellOne(tokens, j, h) && i < j
    ensures !Hits(tokens, h, i)
  {
    SuffixedMore(tokens, i + 1, j + 1);
    HitsPlain(tokens, h, i);
    HitsPlain(tokens, h, j);
    NotBoth(h, tokens[i], tokens[j]);
  }

  lemma FormsAreUpper(token: string)
    ensures Upper(Short(token)) == Short(token) && Upper(Upper(token)) == Upper(token)
  {
    ShortCapitals(token);
    UpperAt(token);
    UpperIs(Short(token), Short(token));
    UpperIs(Upper(token), Upper(token));
  }

  // A form that an earlier token shares does not select this one.
  lemma Shadowed(tokens: seq<string>, i: nat, j: nat, form: string)
    requires i < j < |tokens| && !Suffixed(tokens, j + 1) && Spells(form, tokens[i])
    ensures FirstFrom(tokens, form, 0) != Some(j)
  {
    SuffixedMore(tokens, i + 1, j + 1);
    HitsPlain(tokens, form, i);
  }

  // Without tokens that allow numbers, every spelling of a token selects it exactly when
  // no earlier token shares a form.
  lemma ClearExactly(tokens: seq<string>, j: nat)
    requires j < |tokens| && !Suffixed(tokens, j + 1)
    ensures Clear(tokens, j) <==>
            forall h | h != [] && Spells(h, tokens[j]) :: FirstFrom(tokens, h, 0) == Some(j)
  {
    if Clear(tokens, j) {
      forall h | h != [] && Spells(h, tokens[j]) ensures FirstFrom(tokens, h, 0) == Some(j) {
        FirstIsSpelled(tokens, h, j);
      }
    } else {
      var i :| 0 <= i < j && !Apart(tokens[i], tokens[j]);
      SuffixedMore(tokens, i + 1, j + 1);
      HitsPlain(tokens, "", i);
      HitsPlain(tokens, "", j);
      FormsAreUpper(tokens[i]);
      var form := if Short(tokens[i]) in {Short(tokens[j]), Upper(tokens[j])} && Short(tokens[i]) != []
                  then Short(tokens[i]) else Upper(tokens[i]);
      assert Spells(form, tokens[i]) && Spells(form, tokens[j]);
      Shadowed(tokens, i, j, form);
    }
  }

  // ------------------------------------------------------------- numeric suffixes

  // A word that ends neither in a digit nor in #.
  predicate Bare(h: string) { h != [] ==> !IsDigit(h[|h| - 1]) && !EndsHash(h) }

  predicate Number(d: string) { d != [] && forall k :: 0 <= k < |d| ==> IsDigit(d[k]) }

  lemma {:induction false} NumberOff(h: string, d: string)
    requires Bare(h) && forall k :: 0 <= k < |d| ==> IsDigit(d[k])
    ensures TrimDigits(h + d) == h
    decreases |d|
  {
    if d == [] {
      assert h + d == h;
    } else {
      assert (h + d)[..|h + d| - 1] == h + d[..|d| - 1];
      NumberOff(h, d[..|d| - 1]);
    }
  }

  lemma NumberLeft(tokens: seq<string>, h: string, d: string, j: nat)
    requires j <= |tokens| && Bare(h) && Number(d)
    ensures Left(tokens, h + d, j) == if Suffixed(tokens, j) then h else h + d
    ensures Left(tokens, h, j) == h
  {
    LeftIs(tokens, h + d, j);
    LeftIs(tokens, h, j);
    NumberOff(h, d);
    NumberOff(h, []);
    assert h + [] == h;
  }

  lemma NumberSpells(h: string, d: string, token: string)
    requires Bare(h) && Number(d) && EndsHash(token)
    ensures Spells(h + d, token) <==> Spells(h, token)
  {
    NumberOff(h, d);
    NumberOff(h, []);
    assert h + [] == h;
  }

  lemma NumberTried(tokens: seq<string>, h: string, d: string, i: nat)
    requires i < |tokens| && Bare(h) && Number(d)
    ensures Hits(tokens, h, i) <==> Spells(h, tokens[i])
    ensures Hits(tokens, h + d, i) <==> Spells(if Suffixed(tokens, i + 1) then h else h + d, tokens[i])
  {
    NumberLeft(tokens, h, d, i);
    SuffixedNext(tokens, i);
    if EndsHash(tokens[i]) { NumberSpells(h, d, tokens[i]); }
  }

  lemma SuffixedNext(tokens: seq<string>, i: nat)
    requires i < |tokens|
    ensures Suffixed(tokens, i + 1) <==> Suffixed(tokens, i) || EndsHash(tokens[i])
  {
  }

  // A keyword with a number behind it, which spells nothing as it stands, is taken for the
  // keyword without exactly when that one's token, or any stored before it, allows
  // numbers: what was trimmed for one token is not put back for the next.
  lemma NumberLeaks(tokens: seq<string>, h: string, d: string, j: nat)
    requires j < |tokens| && Bare(h) && Number(d) && FirstFrom(tokens, h, 0) == Some(j)
    requires forall i :: 0 <= i <= j && !Suffixed(tokens, i + 1) ==> !Spells(h + d, tokens[i])
    ensures FirstFrom(tokens, h + d, 0) == Some(j) <==> Suffixed(tokens, j + 1)
  {
    if Suffixed(tokens, j + 1) {
      forall i | 0 <= i < j ensures !Hits(tokens, h + d, i) { NumberTried(tokens, h, d, i); }
      NumberTried(tokens, h, d, j);
      FirstHit(tokens, h + d, j);
    } else {
      NumberTried(tokens, h, d, j);
    }
  }

  // With CHANnel# stored first, VOLT3 is VOLTage.
  lemma VoltThree()
    ensures FirstFrom(["CHANnel#", "VOLTage"], "VOLT3", 0) == Some(1) && FirstFrom(["VOLTage"], "VOLT3", 0) == None
  {
    VoltSpells();
    HitsSecond("CHANnel#", "VOLTage", "VOLT3");
    OnlyToken("VOLTage", "VOLT3");
  }

  lemma HitsSecond(a: string, b: string, h: string)
    requires !Spells(h, a) && Spells(Trimmed(h, a), b)
    ensures FirstFrom([a, b], h, 0) == Some(1)
  {
    assert Left([a, b], h, 1) == Trimmed(h, a);
    FirstHit([a, b], h, 1);
  }

  lemma OnlyToken(a: string, h: string)
    requires !Spells(h, a)
    ensures FirstFrom([a], h, 0) == None
  {
  }

  lemma VoltSpells()
    ensures !Spells("VOLT3", "CHANnel#") && Trimmed("VOLT3", "CHANnel#") == "VOLT"
    ensures Spells("VOLT", "VOLTage") && !Spells("VOLT3", "VOLTage")
  {
    NotChannel();
    VoltForms();
  }

  lemma NotChannel()
    ensures !Spells("VOLT3", "CHANnel#") && Trimmed("VOLT3", "CHANnel#") == "VOLT"
  {
    ChanForms();
    UpperIs("VOLT", "VOLT");
  }

  lemma ChanForms()
    ensures Short("CHANnel#") == "CHAN" && Upper("CHANnel") == "CHANNEL"
    ensures Long("VOLT3", "CHANnel#") == "CHANnel" && Trimmed("VOLT3", "CHANnel#") == "VOLT"
  {
    IsForm("CHANnel#", "CHAN", "CHANNEL#");
    assert "CHANnel#"[..7] == "CHANnel";
    IsForm("CHANnel", "CHAN", "CHANNEL");
    assert "VOLT3"[..4] == "VOLT";
    assert TrimDigits("VOLT") == "VOLT";
  }

  lemma VoltForms()
    ensures Short("VOLTage") == "VOLT" == Upper("VOLT")
    ensures Upper("VOLTage") == "VOLTAGE" && Upper("VOLT3") == "VOLT3"
  {
    IsForm("VOLTage", "VOLT", "VOLTAGE");
    UpperIs("VOLT", "VOLT");
    UpperIs("VOLT3", "VOLT3");
  }

  lemma SpellRest(tokens: seq<string>, js: seq<nat>, hs: seq<string>)
    requires SpellAll(tokens, js, hs) && hs != []
    ensures SpellAll(tokens, js[1..], hs[1..]) && SpellOne(tokens, js[0], hs[0])
  {
    forall k | 0 <= k < |hs[1..]| ensures SpellOne(tokens, js[1..][k], hs[1..][k]) {
      assert SpellOne(tokens, js[k + 1], hs[k + 1]);
    }
  }

  lemma {:induction false} IndicesAreSpelled(tokens: seq<string>, js: seq<nat>, hs: seq<string>)
    requires SpellAll(tokens, js, hs)
    ensures Indices(tokens, hs) == Some(js)
    decreases |hs|
  {
    if hs != [] {
      FirstIsSpelled(tokens, hs[0], js[0]);
      SpellRest(tokens, js, hs);
      IndicesAreSpelled(tokens, js[1..], hs[1..]);
      IndicesCons(tokens, hs[0], hs[1..], js[0], js[1..]);
      assert js == [js[0]] + js[1..] && hs == [hs[0]] + hs[1..];
    }
  }

  // The first tokens of the instrument's table: SYST comes before SYSTem, so the short form
  // of the second selects the first.
  lemma SystemIsShadowed()
    ensures var tokens := ["*IDN", "SYST", "ERR", "SYSTem"];
            && !Clear(tokens, 3)
            && FirstFrom(tokens, "SYST", 0) == Some(1) && FirstFrom(tokens, "SYSTEM", 0) == Some(3)
  {
    SystemSpells();
    ThirdShadowed("*IDN", "SYST", "ERR", "SYSTem");
    SecondOfFour("*IDN", "SYST", "ERR", "SYSTem", "SYST");
    FourthOfFour("*IDN", "SYST", "ERR", "SYSTem", "SYSTEM");
  }

  lemma SecondOfFour(a: string, b: string, c: string, d: string, h: string)
    requires !EndsHash(a) && !EndsHash(b) && !Spells(h, a) && Spells(h, b)
    ensures FirstFrom([a, b, c, d], h, 0) == Some(1)
  {
    PlainFirst([a, b, c, d], h, 1);
  }

  lemma FourthOfFour(a: string, b: string, c: string, d: string, h: string)
    requires !EndsHash(a) && !EndsHash(b) && !EndsHash(c) && !EndsHash(d)
    requires !Spells(h, a) && !Spells(h, b) && !Spells(h, c) && Spells(h, d)
    ensures FirstFrom([a, b, c, d], h, 0) == Some(3)
  {
    PlainFirst([a, b, c, d], h, 3);
  }

  lemma ThirdShadowed(a: string, b: string, c: string, d: string)
    requires !Apart(b, d)
    ensures !Clear([a, b, c, d], 3)
  {
    assert [a, b, c, d][1] == b && [a, b, c, d][3] == d;
  }

  lemma PlainFirst(tokens: seq<string>, h: string, j: nat)
    requires j < |tokens| && !Suffixed(tokens, j + 1) && Spells(h, tokens[j])
    requires forall i :: 0 <= i < j ==> !Spells(h, tokens[i])
    ensures FirstFrom(tokens, h, 0) == Some(j)
  {
    forall i | 0 <= i < j ensures !Hits(tokens, h, i) {
      SuffixedMore(tokens, i + 1, j + 1);
      HitsPlain(tokens, h, i);
    }
    HitsPlain(tokens, h, j);
    FirstHit(tokens, h, j);
  }

  lemma SystemSpells()
    ensures !Spells("SYST", "*IDN") && Spells("SYST", "SYST") && !Apart("SYST", "SYSTem")
    ensures !Spells("SYSTEM", "*IDN") && !Spells("SYSTEM", "SYST") && !Spells("SYSTEM", "ERR")
    ensures Spells("SYSTEM", "SYSTem")
    ensures !EndsHash("*IDN") && !EndsHash("SYST") && !EndsHash("ERR") && !EndsHash("SYSTem")
  {
    SystemForms();
  }

  lemma SystemForms()
    ensures Short("*IDN") == "" && Upper("*IDN") == "*IDN" && Short("ERR") == "ERR" == Upper("ERR")
    ensures Short("SYST") == "SYST" == Upper("SYST") && Short("SYSTem") == "SYST" && Upper("SYSTem") == "SYSTEM"
    ensures Upper("SYSTEM") == "SYSTEM"
  {
    IsForm("*IDN", "", "*IDN");
    IsForm("ERR", "ERR", "ERR");
    IsForm("SYST", "SYST", "SYST");
    IsForm("SYSTem", "SYST", "SYSTEM");
    IsForm("SYSTEM", "SYSTEM", "SYSTEM");
  }

  // How to see the forms of a token.
  lemma IsForm(token: string, short: string, long: string)
    requires short <= token && (forall k :: 0 <= k < |short| ==> IsUpper(short[k]))
    requires |short| < |token| ==> !IsUpper(token[|short|])
    requires |long| == |token| && forall k :: 0 <= k < |token| ==> ToUpper(token[k]) == long[k]
    ensures Short(token) == short && Upper(token) == long
  {
    ShortIs(token, |short|);
    UpperIs(token, long);
  }

  // How to see that a keyword does not spell one.
  lemma Differs(h: string, token: string, k: nat)
    requires k < |h| && k < |token| && !EndsHash(token) && ToUpper(h[k]) != ToUpper(token[k])
    ensures !Spells(h, token)
  {
    UpperAt(h);
    UpperAt(token);
    ShortCapitals(token);
  }

  // A command as it is typed: its last keyword may be followed by a question mark.
  function Typed(hs: seq<string>, query: bool): seq<string>
    requires hs != []
  {
    var n := |hs| - 1;
    if query then hs[..n] + [hs[n] + "?"] else hs
  }

  lemma TypedHeaders(hs: seq<string>, query: bool)
    requires hs != [] && (!query ==> !IsQuery(hs))
    ensures IsQuery(Typed(hs, query)) == query && Headers(Typed(hs, query)) == hs
  {
    var n := |hs| - 1;
    if query {
      var cs := Typed(hs, query);
      assert cs[n][..|cs[n]| - 1] == hs[n];
      assert hs == hs[..n] + [hs[n]];
    }
  }

  // Short or long, in any letter case, keyword by keyword: one code, the hash of the
  // token numbers.
  lemma SpellingIrrelevant(tokens: seq<string>, treeCode: nat, magic: nat, js: seq<nat>, hs: seq<string>, query: bool)
    requires hs != [] && SpellAll(tokens, js, hs) && (!query ==> !IsQuery(hs))
    ensures Code(tokens, treeCode, magic, Typed(hs, query)) == Final(Horner(Start(treeCode), js, magic), query)
  {
    TypedHeaders(hs, query);
    IndicesAreSpelled(tokens, js, hs);
  }

  // A keyword that hits no token.
  predicate Unselected(tokens: seq<string>, header: string) {
    forall j :: 0 <= j < |tokens| ==> !Hits(tokens, header, j)
  }

  lemma {:induction false} IndicesNone(tokens: seq<string>, hs: seq<string>)
    ensures Indices(tokens, hs) == None <==> exists k :: 0 <= k < |hs| && Unselected(tokens, hs[k])
    decreases |hs|
  {
    if hs != [] {
      IndicesNone(tokens, hs[1..]);
      if exists k :: 0 <= k < |hs| && Unselected(tokens, hs[k]) {
        var k :| 0 <= k < |hs| && Unselected(tokens, hs[k]);
        assert k > 0 ==> hs[1..][k - 1] == hs[k];
      }
    }
  }

  // A command selects a token for each of its keywords unless one of them spells none, and
  // then its code is the one for unknown.
  lemma UnknownKeyword(tokens: seq<string>, treeCode: nat, magic: nat, commands: seq<string>)
    ensures var unknown := exists k :: 0 <= k < |commands| && Unselected(tokens, Headers(commands)[k]);
            && (Indices(tokens, Headers(commands)) == None <==> unknown)
            && (unknown ==> Code(tokens, treeCode, magic, commands) == UNKNOWN)
  {
    IndicesNone(tokens, Headers(commands));
  }

  // --------------------------------------------------------------- from the text

  predicate Plain(k: string) { k != [] && forall i :: 0 <= i < |k| ==> k[i] != ':' && !IsSpace(k[i]) }

  function Join(ks: seq<string>): string
    requires ks != []
  {
    if |ks| == 1 then ks[0] else ks[0] + ":" + Join(ks[1..])
  }

  lemma {:induction false} TrimPad(pad: string, s: string)
    requires (forall i :: 0 <= i < |pad| ==> IsSpace(pad[i])) && s != [] && !IsSpace(s[0])
    ensures TrimLeft(pad + s) == s
  {
    if pad == [] {
      assert pad + s == s;
    } else {
      assert (pad + s)[1..] == pad[1..] + s;
      TrimPad(pad[1..], s);
    }
  }

  lemma {:induction false} HeaderPart(s: string, tail: string)
    requires (forall i :: 0 <= i < |s| ==> !IsBlank(s[i])) && (tail == [] || IsBlank(tail[0]))
    ensures UpToBlank(s + tail) == s
  {
    if s == [] {
      assert s + tail == tail;
    } else {
      assert (s + tail)[1..] == s[1..] + tail;
      HeaderPart(s[1..], tail);
      assert s == [s[0]] + s[1..];
    }
  }

  lemma {:induction false} PieceGrows(cur: string, k: string, s: string)
    requires forall i :: 0 <= i < |k| ==> k[i] != ':'
    ensures Pieces(cur, k + s) == Pieces(cur + k, s)
    decreases |k|
  {
    if k == [] {
      assert k + s == s && cur + k == cur;
    } else {
      assert (k + s)[1..] == k[1..] + s;
      PieceGrows(cur + [k[0]], k[1..], s);
      assert cur + [k[0]] + k[1..] == cur + k;
    }
  }

  lemma {:induction false} PiecesOfJoin(ks: seq<string>)
    requires ks != [] && forall i :: 0 <= i < |ks| ==> Plain(ks[i])
    ensures Pieces([], Join(ks)) == ks
    ensures Join(ks) != [] && Join(ks)[0] != ':' && forall i :: 0 <= i < |Join(ks)| ==> !IsSpace(Join(ks)[i])
    decreases |ks|
  {
    assert [] + ks[0] == ks[0];
    if |ks| == 1 {
      PieceGrows([], ks[0], []);
      assert ks[0] + [] == ks[0];
    } else {
      var rest := Join(ks[1..]);
      PieceGrows([], ks[0], ":" + rest);
      assert ks[0] + ":" + rest == ks[0] + (":" + rest);
      assert (":" + rest)[1..] == rest;
      PiecesOfJoin(ks[1..]);
      assert ks == [ks[0]] + ks[1..];
    }
  }

  // A command line: spaces, perhaps a colon, the keywords, and parameters after a blank.
  function Text(pad: string, colon: bool, ks: seq<string>, tail: string): string
    requires ks != []
  {
    pad + ((if colon then ":" + Join(ks) else Join(ks)) + tail)
  }

  predicate Surroundings(pad: string, tail: string) {
    (forall i :: 0 <= i < |pad| ==> IsSpace(pad[i])) && (tail == [] || IsBlank(tail[0]))
  }

  // All but the keywords makes no difference.
  lemma KeywordsOfText(pad: string, colon: bool, ks: seq<string>, tail: string)
    requires ks != [] && forall i :: 0 <= i < |ks| ==> Plain(ks[i])
    requires Surroundings(pad, tail)
    ensures Keywords(Text(pad, colon, ks, tail)) == if |ks| <= 6 then ks else ks[..6]
  {
    PiecesOfJoin(ks);
    var body := if colon then ":" + Join(ks) else Join(ks);
    TrimPad(pad, body + tail);
    HeaderPart(body, tail);
    PiecesAfterColon(Join(ks));
  }

  lemma PiecesAfterColon(s: string)
    ensures Pieces([], ":" + s) == Pieces([], s)
  {
    assert (":" + s)[1..] == s;
  }

  // ------------------------------------------------------------------- dispatch

  function FirstCode(codes: seq<nat>, code: nat, i: nat): (r: Option<nat>)
    requires i <= |codes|
    ensures r.Some? ==> i <= r.value < |codes| && codes[r.value] == code
    ensures forall k :: i <= k < (if r.Some? then r.value else |codes|) ==> codes[k] != code
    decreases |codes| - i
  {
    if i == |codes| then None else if codes[i] == code then Some(i) else FirstCode(codes, code, i + 1)
  }

  // The handler one command runs; none means the error handler.
  function Selected(tokens: seq<string>, codes: seq<nat>, magic: nat, message: string): Option<nat> {
    FirstCode(codes, Code(tokens, 0, magic, Keywords(message)), 0)
  }

  lemma TypedPlain(hs: seq<string>, query: bool)
    requires hs != [] && forall k :: 0 <= k < |hs| ==> Plain(hs[k])
    ensures forall k :: 0 <= k < |hs| ==> Plain(Typed(hs, query)[k])
  {
    var n := |hs| - 1;
    var asked := hs[n] + "?";
    assert forall i :: 0 <= i < |asked| ==> asked[i] == '?' || (i < |hs[n]| && asked[i] == hs[n][i]);
  }

  // Any spelling of a command, with or without leading spaces, colon and parameters, runs
  // the handler registered first for its code.
  lemma SpelledCommandRuns(tokens: seq<string>, codes: seq<nat>, magic: nat, js: seq<nat>, hs: seq<string>,
                           query: bool, pad: string, colon: bool, tail: string, i: nat)
    requires SpellAll(tokens, js, hs) && 1 <= |hs| <= MAX_KEYWORDS
    requires (forall k :: 0 <= k < |hs| ==> Plain(hs[k])) && (!query ==> !IsQuery(hs))
    requires Surroundings(pad, tail)
    requires i < |codes| && forall k :: 0 <= k < i ==> codes[k] != codes[i]
    requires codes[i] == Final(Horner(ROOT, js, magic), query)
    ensures Selected(tokens, codes, magic, Text(pad, colon, Typed(hs, query), tail)) == Some(i)
  {
    var ks := Typed(hs, query);
    TypedPlain(hs, query);
    KeywordsOfText(pad, colon, ks, tail);
    SpellingIrrelevant(tokens, 0, magic, js, hs, query);
    FirstCodeIs(codes, Code(tokens, 0, magic, ks), i);
  }

  lemma FirstCodeIs(codes: seq<nat>, code: nat, i: nat)
    requires i < |codes| && codes[i] == code && forall k :: 0 <= k < i ==> codes[k] != code
    ensures FirstCode(codes, code, 0) == Some(i)
  {
  }

  // --------------------------------------------- what the hash forgets, and more

  // The instrument sets the hash's magic number to 16.
  const INSTRUMENT_MAGIC := 16

  // The number of the last two of a path of tokens.
  function PairCode(path: seq<nat>): nat
    requires |path| >= 2
  {
    16 * path[|path| - 2] + path[|path| - 1]
  }

  predicate Small(js: seq<nat>) { forall k :: 0 <= k < |js| ==> js[k] < 16 }

  // A code is the last two tokens of the path to it.
  lemma {:induction false} LastTwo(a: nat, b: nat, js: seq<nat>)
    requires a < 16 && b < 16 && Small(js)
    ensures Horner(16 * a + b, js, INSTRUMENT_MAGIC) == PairCode([a, b] + js)
    decreases |js|
  {
    if js == [] {
      assert [a, b] + js == [a, b];
    } else {
      Shifted(a, b, js[0]);
      LastTwo(b, js[0], js[1..]);
      OneFurther(a, b, js);
    }
  }

  lemma OneFurther(a: nat, b: nat, js: seq<nat>)
    requires js != []
    ensures PairCode([a, b] + js) == PairCode([b, js[0]] + js[1..])
  {
    assert [a, b] + js == [a] + ([b, js[0]] + js[1..]);
  }

  lemma Shifted(a: nat, b: nat, j: nat)
    requires a < 16 && b < 16 && j < 16
    ensures Hash(16 * a + b, j, 16) == 16 * b + j
  {
    ToByteIs((16 * a + b) * 16 + j);
    ModUnique((16 * a + b) * 16 + j, 256, a, 16 * b + j);
  }

  lemma QueryInverse(code: nat)
    requires code < 256
    ensures (QueryCode(code) + 1) * 173 % 256 == code
  {
    var q, r := (code * 37 + 255) / 256, (code * 37 + 255) % 256;
    ToByteIs(code * 37 + 255);
    assert (r + 1) * 173 == 256 * (25 * code + 173 - 173 * q) + code;
    ModUnique((r + 1) * 173, 256, 25 * code + 173 - 173 * q, code);
  }

  lemma SameQuery(x: nat, y: nat)
    requires x < 256 && y < 256
    ensures QueryCode(x) == QueryCode(y) <==> x == y
  {
    QueryInverse(x);
    QueryInverse(y);
  }

  lemma SamePair(a: nat, b: nat, c: nat, d: nat)
    requires a < 16 && b < 16 && c < 16 && d < 16
    ensures 16 * a + b == 16 * c + d <==> a == c && b == d
  {
  }

  lemma {:induction false} IndicesBounded(tokens: seq<string>, hs: seq<string>)
    requires Indices(tokens, hs).Some?
    ensures forall k :: 0 <= k < |hs| ==> Indices(tokens, hs).value[k] < |tokens|
  {
    if hs != [] { IndicesBounded(tokens, hs[1..]); }
  }

  // From the root, as if two tokens had gone before.
  function Path(js: seq<nat>): (path: seq<nat>)
    ensures |path| == |js| + 2
  {
    [0, ROOT] + js
  }

  // The same last two; of a query and a command that is none, those whose numbers the query
  // step takes into each other.
  predicate Collide(query: bool, path: seq<nat>, asked: bool, other: seq<nat>)
    requires |path| >= 2 && |other| >= 2
  {
    if query == asked then path[|path| - 2..] == other[|other| - 2..]
    else if query then (PairCode(other) + 1) * 173 % 256 == PairCode(path)
    else (PairCode(path) + 1) * 173 % 256 == PairCode(other)
  }

  // With that number two known commands, of however many keywords, have one code exactly
  // when the last two tokens of their paths collide: what comes before makes no difference,
  // and the root is a token like any other.
  lemma OnlyLastTwoCount(tokens: seq<string>, cs: seq<string>, ds: seq<string>)
    requires |tokens| <= MAX_TOKENS
    requires Indices(tokens, Headers(cs)).Some? && Indices(tokens, Headers(ds)).Some?
    ensures var js, ks := Indices(tokens, Headers(cs)).value, Indices(tokens, Headers(ds)).value;
            Code(tokens, 0, INSTRUMENT_MAGIC, cs) == Code(tokens, 0, INSTRUMENT_MAGIC, ds)
            <==> Collide(IsQuery(cs), Path(js), IsQuery(ds), Path(ks))
  {
    var js, ks := Indices(tokens, Headers(cs)).value, Indices(tokens, Headers(ds)).value;
    var p := PathCode(tokens, cs, js);
    var q := PathCode(tokens, ds, ks);
    PairsDecide(Path(js), Path(ks), p, q, IsQuery(cs), IsQuery(ds));
  }

  lemma PathCode(tokens: seq<string>, commands: seq<string>, js: seq<nat>) returns (p: nat)
    requires |tokens| <= MAX_TOKENS && Indices(tokens, Headers(commands)) == Some(js)
    ensures Small(Path(js)) && p == Code(tokens, 0, INSTRUMENT_MAGIC, commands)
    ensures p == Final(PairCode(Path(js)), IsQuery(commands))
  {
    IndicesBounded(tokens, Headers(commands));
    LastTwo(0, ROOT, js);
    p := Final(Horner(ROOT, js, INSTRUMENT_MAGIC), IsQuery(commands));
  }

  lemma PairsDecide(path: seq<nat>, other: seq<nat>, p: nat, q: nat, query: bool, asked: bool)
    requires |path| >= 2 && |other| >= 2 && Small(path) && Small(other)
    requires p == Final(PairCode(path), query) && q == Final(PairCode(other), asked)
    ensures p == q <==> Collide(query, path, asked, other)
  {
    var x, y := PairCode(path), PairCode(other);
    if query == asked {
      if query { SameQuery(x, y); }
      SamePair(path[|path| - 2], path[|path| - 1], other[|other| - 2], other[|other| - 1]);
      LastTwoSame(path, other);
    } else {
      QueryExactly(x, y);
      QueryExactly(y, x);
    }
  }

  lemma QueryExactly(x: nat, y: nat)
    requires x < 256 && y < 256
    ensures QueryCode(x) == y <==> (y + 1) * 173 % 256 == x
  {
    QueryInverse(x);
    if (y + 1) * 173 % 256 == x {
      var q := (y + 1) * 173 / 256;
      assert x * 37 + 255 == 256 * (25 * (y + 1) - 37 * q + 1) + y;
      ToByteIs(x * 37 + 255);
      ModUnique(x * 37 + 255, 256, 25 * (y + 1) - 37 * q + 1, y);
    }
  }

  // A known command has the code for unknown in one case: a query that ends on the first
  // token twice.
  lemma KnownAsUnknown(tokens: seq<string>, commands: seq<string>)
    requires |tokens| <= MAX_TOKENS && Indices(tokens, Headers(commands)).Some?
    ensures var path := Path(Indices(tokens, Headers(commands)).value);
            Code(tokens, 0, INSTRUMENT_MAGIC, commands) == UNKNOWN <==>
            IsQuery(commands) && path[|path| - 2..] == [0, 0]
  {
    var js := Indices(tokens, Headers(commands)).value;
    var p := PathCode(tokens, commands, js);
    IndicesBounded(tokens, Headers(commands));
    UnknownPair(Path(js), p, IsQuery(commands));
  }

  lemma UnknownPair(path: seq<nat>, p: nat, query: bool)
    requires |path| >= 2 && (forall k :: 0 <= k < |path| ==> path[k] < 15)
    requires p == Final(PairCode(path), query)
    ensures p == UNKNOWN <==> query && path[|path| - 2..] == [0, 0]
  {
    var a, b := path[|path| - 2], path[|path| - 1];
    assert path[|path| - 2..] == [a, b];
    if query { QueryExactly(16 * a + b, UNKNOWN); }
  }

  lemma IndicesCons(tokens: seq<string>, h: string, hs: seq<string>, j: nat, js: seq<nat>)
    requires FirstFrom(tokens, h, 0) == Some(j) && Indices(tokens, hs) == Some(js)
    ensures Indices(tokens, [h] + hs) == Some([j] + js)
  {
    assert ([h] + hs)[1..] == hs;
  }

  lemma LastTwoSame(js: seq<nat>, ks: seq<nat>)
    requires |js| >= 2 && |ks| >= 2
    ensures js[|js| - 2..] == ks[|ks| - 2..] <==>
            js[|js| - 2] == ks[|ks| - 2] && js[|js| - 1] == ks[|ks| - 1]
  {
    assert js[|js| - 2..] == [js[|js| - 2], js[|js| - 1]];
    assert ks[|ks| - 2..] == [ks[|ks| - 2], ks[|ks| - 1]];
  }

  // A lone question mark is a keyword of no letters. It is known exactly when some token
  // begins with no capital, its short form being empty, and then it has the code of the
  // first of those as a query.
  lemma QuestionMarkIdentifies(tokens: seq<string>, magic: nat, j: nat)
    requires j <= |tokens| && (forall i :: 0 <= i < j ==> ShortLength(tokens[i]) > 0)
    requires j < |tokens| ==> ShortLength(tokens[j]) == 0
    ensures j < |tokens| <==> Indices(tokens, Headers(["?"])).Some?
    ensures Code(tokens, 0, magic, ["?"]) == if j < |tokens| then QueryCode(Hash(ROOT, j, magic)) else UNKNOWN
  {
    assert "" + "?" == "?";
    OneKeyword(tokens, magic, "");
    forall i | 0 <= i < j ensures !Hits(tokens, "", i) { NothingHits(tokens, i); }
    if j < |tokens| {
      NothingHits(tokens, j);
      FirstHit(tokens, "", j);
    }
  }

  lemma NothingHits(tokens: seq<string>, i: nat)
    requires i < |tokens|
    ensures Hits(tokens, "", i) <==> ShortLength(tokens[i]) == 0
  {
    LeftIs(tokens, "", i);
    NothingSpells(tokens[i]);
  }

  lemma NothingSpells(token: string)
    ensures Spells("", token) <==> ShortLength(token) == 0
  {
    MatchIsSpelling("", token);
    ShortWithin("", token);
  }

  // In the instrument's table that is the identification query.
  lemma QuestionMarkIsIdn(tokens: seq<string>, magic: nat)
    requires tokens != [] && tokens[0] == "*IDN"
    ensures Code(tokens, 0, magic, ["?"]) == Code(tokens, 0, magic, ["*IDN?"])
  {
    QuestionMarkIdentifies(tokens, magic, 0);
    assert "*IDN" + "?" == "*IDN?";
    OneKeyword(tokens, magic, "*IDN");
    assert Matches("*IDN", "*IDN");
  }

  lemma OneKeyword(tokens: seq<string>, magic: nat, h: string)
    ensures Headers([h + "?"]) == [h]
    ensures Indices(tokens, [h]).Some? <==> FirstFrom(tokens, h, 0).Some?
    ensures Code(tokens, 0, magic, [h + "?"]) ==
            match FirstFrom(tokens, h, 0) case None => UNKNOWN case Some(j) => QueryCode(Hash(ROOT, j, magic))
  {
    assert Typed([h], true) == [h + "?"];
    TypedHeaders([h], true);
    OneIndex(tokens, h);
    var j := FirstFrom(tokens, h, 0);
    if j.Some? { HornerOne(ROOT, j.value, magic); }
  }

  lemma OneIndex(tokens: seq<string>, h: string)
    ensures Indices(tokens, [h]) ==
            match FirstFrom(tokens, h, 0) case None => None case Some(j) => Some([j])
  {
    var none: seq<string> := [];
    assert [h][1..] == none;
    assert Indices(tokens, none) == Some([]);
    var j := FirstFrom(tokens, h, 0);
    if j.Some? {
      var js: seq<nat> := [j.value];
      assert js + [] == js;
    }
  }

  lemma HornerOne(code: nat, j: nat, magic: nat)
    ensures Horner(code, [j], magic) == Hash(code, j, magic)
  {
    var js: seq<nat> := [j];
    assert js[1..] == [];
    var none: seq<nat> := [];
    assert Horner(code, js, magic) == Horner(Hash(code, j, magic), none, magic);
  }

  // ---------------------------------------------------------------- registration

  function Stored(token: string): string {
    if token != [] && token[|token| - 1] == '?' then token[..|token| - 1] else token
  }

  // Whether the search for a token ends with "already there": every stored token that
  // begins with it turns the answer round.
  function Already(tokens: seq<string>, t: string): bool {
    if tokens == [] then false
    else var n := |tokens| - 1; Already(tokens[..n], t) != (t <= tokens[n])
  }

  function AddToken(tokens: seq<string>, token: string): seq<string> {
    if Already(tokens, Stored(token)) || |tokens| >= MAX_TOKENS then tokens else tokens + [Stored(token)]
  }

  function AddTokens(tokens: seq<string>, ks: seq<string>): seq<string>
    decreases |ks|
  {
    if ks == [] then tokens else AddTokens(AddToken(tokens, ks[0]), ks[1..])
  }

  // What the calls that set a parser up have made of it.
  datatype Parser = Parser(tokens: seq<string>, codes: seq<nat>, tree: nat)

  datatype Registration = Base(text: string) | Command(text: string)

  // SetCommandTreeBase and RegisterCommand.
  function Register(p: Parser, magic: nat, r: Registration): Parser {
    match r
    case Base(text) =>
      if text == [] then p.(tree := 0) else
      var tokens := AddTokens(p.tokens, Keywords(text));
      Parser(tokens, p.codes, Code(tokens, 0, magic, Keywords(text)))
    case Command(text) =>
      var tokens := AddTokens(p.tokens, Keywords(text));
      Parser(tokens, p.codes + [Code(tokens, p.tree, magic, Keywords(text))], p.tree)
  }

  function RegisterAll(p: Parser, magic: nat, rs: seq<Registration>): Parser
    decreases |rs|
  {
    if rs == [] then p else RegisterAll(Register(p, magic, rs[0]), magic, rs[1..])
  }

  lemma {:induction false} RegisterAppend(p: Parser, magic: nat, rs: seq<Registration>, qs: seq<Registration>)
    ensures RegisterAll(p, magic, rs + qs) == RegisterAll(RegisterAll(p, magic, rs), magic, qs)
    decreases |rs|
  {
    if rs == [] {
      assert rs + qs == qs;
    } else {
      assert (rs + qs)[1..] == rs[1..] + qs;
      RegisterAppend(Register(p, magic, rs[0]), magic, rs[1..], qs);
    }
  }

  function Extensions(tokens: seq<string>, t: string): nat {
    if tokens == [] then 0
    else var n := |tokens| - 1; Extensions(tokens[..n], t) + if t <= tokens[n] then 1 else 0
  }

  lemma {:induction false} AlreadyIsOdd(tokens: seq<string>, t: string)
    ensures Already(tokens, t) <==> Extensions(tokens, t) % 2 == 1
  {
    if tokens != [] { AlreadyIsOdd(tokens[..|tokens| - 1], t); }
  }

  // With room left, a new token is stored unless an odd number of stored tokens begin
  // with it; a stored one is stored again if their number is even.
  lemma TokenStored(tokens: seq<string>, token: string)
    ensures var t, after, room := Stored(token), AddToken(tokens, token), |tokens| < 15;
            && (t in after <==> t in tokens || (Extensions(tokens, t) % 2 == 0 && room))
            && after == if Extensions(tokens, t) % 2 == 0 && room then tokens + [t] else tokens
  {
    AlreadyIsOdd(tokens, Stored(token));
  }

  // An empty base is the root again.
  lemma EmptyBaseIsRoot(p: Parser, magic: nat, text: string)
    ensures var q := Register(Register(p, magic, Base("")), magic, Command(text));
            q.codes == p.codes + [Code(AddTokens(p.tokens, Keywords(text)), 0, magic, Keywords(text))] && q.tree == 0
  {
  }

  // So a keyword that begins one stored token and is none itself can never be used.
  lemma PrefixTokenLost(magic: nat)
    ensures AddToken(["SYST"], "SYS?") == ["SYST"]
    ensures Code(AddToken(["SYST"], "SYS?"), 0, magic, ["SYS?"]) == UNKNOWN
  {
    assert Stored("SYS?") == "SYS";
    assert ["SYST"][..0] == [];
    assert Already(["SYST"], "SYS");
    assert Headers(["SYS?"]) == ["SYS"];
    assert !Matches("SYS", "SYST");
    assert ShortLength("SYST") == 4;
  }

  lemma {:induction false} TokensExtend(tokens: seq<string>, ks: seq<string>)
    ensures tokens <= AddTokens(tokens, ks)
    decreases |ks|
  {
    if ks != [] { TokensExtend(AddToken(tokens, ks[0]), ks[1..]); }
  }

  lemma {:induction false} LeftSurvives(tokens: seq<string>, more: seq<string>, h: string, j: nat)
    requires tokens <= more && j <= |tokens|
    ensures Left(more, h, j) == Left(tokens, h, j)
  {
    if j > 0 { LeftSurvives(tokens, more, h, j - 1); }
  }

  lemma FirstSurvives(tokens: seq<string>, more: seq<string>, h: string)
    requires tokens <= more && FirstFrom(tokens, h, 0).Some?
    ensures FirstFrom(more, h, 0) == FirstFrom(tokens, h, 0)
  {
    forall j | 0 <= j < |tokens| ensures Hits(more, h, j) <==> Hits(tokens, h, j) { LeftSurvives(tokens, more, h, j); }
    var r := FirstFrom(more, h, 0);
    assert Hits(more, h, FirstFrom(tokens, h, 0).value);
    assert r.Some? && Hits(more, h, r.value);
  }

  lemma {:induction false} IndicesSurvive(tokens: seq<string>, more: seq<string>, hs: seq<string>)
    requires tokens <= more && Indices(tokens, hs).Some?
    ensures Indices(more, hs) == Indices(tokens, hs)
  {
    if hs != [] {
      FirstSurvives(tokens, more, hs[0]);
      IndicesSurvive(tokens, more, hs[1..]);
    }
  }

  // Tokens added for later commands do not change the code of an earlier one.
  lemma CodeSurvives(tokens: seq<string>, treeCode: nat, magic: nat, commands: seq<string>, later: seq<string>)
    requires Indices(tokens, Headers(commands)).Some?
    ensures Code(AddTokens(tokens, later), treeCode, magic, commands) == Code(tokens, treeCode, magic, commands)
  {
    TokensExtend(tokens, later);
    IndicesSurvive(tokens, AddTokens(tokens, later), Headers(commands));
  }

  lemma {:induction false} HornerAppend(code: nat, js: seq<nat>, ks: seq<nat>, magic: nat)
    ensures Horner(code, js + ks, magic) == Horner(Horner(code, js, magic), ks, magic)
    decreases |js|
  {
    if js == [] {
      assert js + ks == ks;
    } else {
      assert (js + ks)[1..] == js[1..] + ks;
      HornerAppend(Hash(code, js[0], magic), js[1..], ks, magic);
    }
  }

  // A command registered under a tree base is reached by the whole path from the root;
  // but a base whose hash is zero counts as none, and then only by the command alone.
  lemma TreeBaseIsPrefix(tokens: seq<string>, magic: nat, ts: seq<nat>, bases: seq<string>,
                         js: seq<nat>, hs: seq<string>, query: bool)
    requires SpellAll(tokens, ts, bases) && SpellAll(tokens, js, hs)
    requires hs != [] && !IsQuery(bases) && (!query ==> !IsQuery(hs))
    ensures var tree := Code(tokens, 0, magic, bases);
            && tree == Horner(ROOT, ts, magic)
            && Code(tokens, tree, magic, Typed(hs, query)) ==
               Code(tokens, 0, magic, Typed(if tree != 0 then bases + hs else hs, query))
  {
    BaseCode(tokens, magic, ts, bases);
    var tree := Horner(ROOT, ts, magic);
    SpellingIrrelevant(tokens, tree, magic, js, hs, query);
    if tree != 0 {
      WholePath(tokens, magic, ts, bases, js, hs, query);
    } else {
      SpellingIrrelevant(tokens, 0, magic, js, hs, query);
    }
  }

  lemma BaseCode(tokens: seq<string>, magic: nat, ts: seq<nat>, bases: seq<string>)
    requires SpellAll(tokens, ts, bases) && !IsQuery(bases)
    ensures Code(tokens, 0, magic, bases) == Horner(ROOT, ts, magic)
  {
    IndicesAreSpelled(tokens, ts, bases);
  }

  lemma WholePath(tokens: seq<string>, magic: nat, ts: seq<nat>, bases: seq<string>,
                  js: seq<nat>, hs: seq<string>, query: bool)
    requires SpellAll(tokens, ts, bases) && SpellAll(tokens, js, hs)
    requires hs != [] && (!query ==> !IsQuery(hs))
    ensures Code(tokens, 0, magic, Typed(bases + hs, query)) ==
            Final(Horner(Horner(ROOT, ts, magic), js, magic), query)
  {
    var all := bases + hs;
    SpellBoth(tokens, ts, bases, js, hs);
    SpellingIrrelevant(tokens, 0, magic, ts + js, all, query);
    HornerAppend(ROOT, ts, js, magic);
  }

  lemma SameLast(bases: seq<string>, hs: seq<string>)
    requires hs != []
    ensures (bases + hs)[|bases + hs| - 1] == hs[|hs| - 1]
  {
  }

  lemma SpellBoth(tokens: seq<string>, ts: seq<nat>, bases: seq<string>, js: seq<nat>, hs: seq<string>)
    requires SpellAll(tokens, ts, bases) && SpellAll(tokens, js, hs) && hs != []
    ensures SpellAll(tokens, ts + js, bases + hs) && IsQuery(bases + hs) == IsQuery(hs)
  {
    SameLast(bases, hs);
    forall k | 0 <= k < |bases + hs| ensures SpellOne(tokens, (ts + js)[k], (bases + hs)[k]) {
      SpellPick(tokens, ts, bases, js, hs, k);
    }
  }

  lemma SpellPick(tokens: seq<string>, ts: seq<nat>, bases: seq<string>, js: seq<nat>, hs: seq<string>, k: nat)
    requires SpellAll(tokens, ts, bases) && SpellAll(tokens, js, hs) && k < |bases + hs|
    ensures SpellOne(tokens, (ts + js)[k], (bases + hs)[k])
  {
    if k < |bases| {
      assert SpellOne(tokens, ts[k], bases[k]);
    } else {
      assert SpellOne(tokens, js[k - |ts|], hs[k - |ts|]);
    }
  }

  // ---------------------------------------------------------- several in one line

  // The commands between semicolons, empty ones included; cur is the one begun.
  function Commands(cur: string, s: string): seq<string>
    decreases |s|
  {
    if s == [] then [cur]
    else if s[0] == ';' then [cur] + Commands([], s[1..])
    else Commands(cur + [s[0]], s[1..])
  }

  lemma {:induction false} CommandsSplit(cur: string, a: string, s: string)
    requires forall i :: 0 <= i < |a| ==> a[i] != ';'
    ensures Commands(cur, a) == [cur + a]
    ensures Commands(cur, a + (";" + s)) == [cur + a] + Commands([], s)
    decreases |a|
  {
    if a == [] {
      assert cur + a == cur;
      assert a + (";" + s) == ";" + s && (";" + s)[1..] == s;
    } else {
      assert (a + (";" + s))[1..] == a[1..] + (";" + s);
      assert cur + [a[0]] + a[1..] == cur + a;
      CommandsSplit(cur + [a[0]], a[1..], s);
    }
  }

  function SelectedAll(tokens: seq<string>, codes: seq<nat>, magic: nat, messages: seq<string>): seq<Option<nat>>
    decreases |messages|
  {
    if messages == [] then []
    else [Selected(tokens, codes, magic, messages[0])] + SelectedAll(tokens, codes, magic, messages[1..])
  }

  // ------------------------------------------------------------------- the object

  class ScpiCommands {
    var tokens: seq<string>
    var codes: seq<nat>
    var treeCode: nat
    const magic: nat

    constructor (magicNumber: nat)
      ensures tokens == [] && codes == [] && treeCode == 0 && magic == magicNumber
    {
      tokens, codes, treeCode, magic := [], [], 0, magicNumber;
    }

    // left is the keyword as the next token will find it.
    static method TokenMatches(header: string, token: string) returns (isToken: bool, left: string)
      ensures isToken <==> Spells(header, token)
      ensures left == Trimmed(header, token)
    {
      MatchIsSpelling(header, token);
      var shortLength := CapitalsOf(token);
      var longLength;
      left, longLength := TrimFor(header, token);
      isToken := Compare(left, token, shortLength, longLength);
    }

    static method CapitalsOf(token: string) returns (shortLength: nat)
      ensures shortLength == ShortLength(token)
    {
      shortLength := 0;
      while shortLength < |token| && IsUpper(token[shortLength])
        invariant shortLength <= |token| && forall k :: 0 <= k < shortLength ==> IsUpper(token[k])
      {
        shortLength := shortLength + 1;
      }
      ShortIs(token, shortLength);
    }

    static method TrimFor(header: string, token: string) returns (left: string, longLength: nat)
      ensures longLength <= |token| && left == Trimmed(header, token) && token[..longLength] == Long(header, token)
    {
      longLength := |token|;
      left := header;
      if token != [] && token[longLength - 1] == '#' && (header == [] || header[|header| - 1] != '#') {
        longLength := longLength - 1;
        left := DropDigits(left);
      }
    }

    static method DropDigits(header: string) returns (left: string)
      ensures left == TrimDigits(header)
    {
      left := header;
      while left != [] && IsDigit(left[|left| - 1])
        invariant TrimDigits(left) == TrimDigits(header)
      {
        left := left[..|left| - 1];
      }
    }

    static method Compare(header: string, token: string, shortLength: nat, longLength: nat) returns (isToken: bool)
      requires shortLength == ShortLength(token) && longLength <= |token|
      ensures isToken <==> Fits(header, token, token[..longLength])
    {
      isToken := true;
      var k := 0;
      if |header| == shortLength {
        while k < shortLength
          invariant k <= shortLength
          invariant isToken <==> forall i :: 0 <= i < k ==> ToUpper(header[i]) == token[i]
        {
          isToken := isToken && ToUpper(header[k]) == token[k];
          k := k + 1;
        }
      } else if |header| == longLength {
        while k < longLength
          invariant k <= longLength
          invariant isToken <==> forall i :: 0 <= i < k ==> ToUpper(header[i]) == ToUpper(token[i])
        {
          isToken := isToken && ToUpper(header[k]) == ToUpper(token[k]);
          k := k + 1;
        }
      } else {
        isToken := false;
      }
    }

    // The number of the first token a keyword spells.
    method FindToken(header: string) returns (found: Option<nat>)
      ensures found == FirstFrom(tokens, header, 0)
    {
      var j, left := 0, header;
      while j < |tokens|
        invariant j <= |tokens| && left == Left(tokens, header, j)
        invariant FirstFrom(tokens, header, j) == FirstFrom(tokens, header, 0)
      {
        var isToken, next := TokenMatches(left, tokens[j]);
        if isToken {
          return Some(j);
        }
        left := next;
        j := j + 1;
      }
      return None;
    }

    // A keyword without the question mark of a query.
    static method HeaderAt(commands: seq<string>, i: nat) returns (header: string, isQuery: bool)
      requires i < |commands|
      ensures header == Headers(commands)[i] && isQuery == (i == |commands| - 1 && IsQuery(commands))
    {
      header, isQuery := commands[i], false;
      if i == |commands| - 1 {
        isQuery := header != [] && header[|header| - 1] == '?';
        if isQuery {
          header := header[..|header| - 1];
        }
      }
    }

    static method NextCode(code: nat, j: nat, magic: nat) returns (next: nat)
      ensures next == Hash(code, j, magic)
    {
      next := code * magic;
      ToByteIs(next + j);
      next := (next + j) % 256;
    }

    // One turn of the hashing loop.
    method HashKeyword(commands: seq<string>, i: nat, code: nat)
      returns (found: Option<nat>, next: nat, isQuery: bool)
      requires i < |commands|
      ensures isQuery == (i == |commands| - 1 && IsQuery(commands))
      ensures Rest(tokens, Headers(commands)[i..], code, magic) ==
              if found == None then None else Rest(tokens, Headers(commands)[i + 1..], next, magic)
    {
      var header, last := HeaderAt(commands, i);
      isQuery := last;
      found := FindToken(header);
      RestAt(tokens, Headers(commands), i, code, magic);
      next := code;
      if found.Some? {
        next := NextCode(code, found.value, magic);
      }
    }

    method GetCommandCode(commands: seq<string>) returns (code: nat)
      ensures code == Code(tokens, treeCode, magic, commands)
    {
      code := if treeCode != 0 then treeCode else ROOT;
      var isQuery := false;
      ghost var hs := Headers(commands);
      var i := 0;
      while i < |commands|
        invariant i <= |commands|
        invariant isQuery == (i == |commands| && IsQuery(commands))
        invariant Rest(tokens, hs[i..], code, magic) == Rest(tokens, hs, Start(treeCode), magic)
      {
        var found, next, last := HashKeyword(commands, i, code);
        if found == None {
          NoCode(tokens, treeCode, magic, commands);
          return UNKNOWN;
        }
        code, isQuery := next, last;
        i := i + 1;
      }
      assert hs[i..] == [];
      CodeReached(tokens, treeCode, magic, commands, code);
      if isQuery {
        ToByteIs(code * 37 + 255);
        code := (code * 37 + 255) % 256;
      }
    }

    method AddOne(token: string)
      modifies `tokens
      ensures tokens == AddToken(old(tokens), token)
    {
      var isQuery := token != [] && token[|token| - 1] == '?';
      var t := if isQuery then token[..|token| - 1] else token;
      var allreadyAdded := false;
      var i := 0;
      while i < |tokens|
        invariant i <= |tokens| && allreadyAdded == Already(tokens[..i], t)
      {
        assert tokens[..i + 1][..i] == tokens[..i];
        allreadyAdded := allreadyAdded != (t <= tokens[i]);
        i := i + 1;
      }
      assert tokens[..i] == tokens;
      if !allreadyAdded {
        if |tokens| < MAX_TOKENS {
          tokens := tokens + [t];
        }
      }
    }

    method AddAll(keywords: seq<string>)
      modifies `tokens
      ensures tokens == AddTokens(old(tokens), keywords)
    {
      var i := 0;
      while i < |keywords|
        invariant i <= |keywords| && AddTokens(tokens, keywords[i..]) == AddTokens(old(tokens), keywords)
      {
        assert keywords[i..][1..] == keywords[i + 1..];
        AddOne(keywords[i]);
        i := i + 1;
      }
    }

    method SetCommandTreeBase(treeBase: string)
      modifies `tokens, `treeCode
      ensures Parser(tokens, codes, treeCode) == Register(old(Parser(tokens, codes, treeCode)), magic, Base(treeBase))
    {
      if |treeBase| > 0 {
        AddAll(Keywords(treeBase));
        treeCode := 0;
        var code := GetCommandCode(Keywords(treeBase));
        treeCode := code;
      } else {
        treeCode := 0;
      }
    }

    method RegisterCommand(command: string)
      requires |codes| < MAX_COMMANDS
      modifies `tokens, `codes
      ensures Parser(tokens, codes, treeCode) == Register(old(Parser(tokens, codes, treeCode)), magic, Command(command))
    {
      AddAll(Keywords(command));
      var code := GetCommandCode(Keywords(command));
      codes := codes + [code];
    }

    // The handlers run, in order; none stands for the error handler.
    method Execute(message: string) returns (ran: seq<Option<nat>>)
      modifies `treeCode
      ensures treeCode == 0
      ensures ran == SelectedAll(tokens, codes, magic, Commands([], message))
    {
      ran := [];
      var rest := Some(message);
      while rest.Some?
        invariant if rest.Some? then
                    ran + SelectedAll(tokens, codes, magic, Commands([], rest.value))
                    == SelectedAll(tokens, codes, magic, Commands([], message))
                  else treeCode == 0 && ran == SelectedAll(tokens, codes, magic, Commands([], message))
        decreases if rest.Some? then |rest.value| + 1 else 0
      {
        var text, next := CutAtSemicolon(rest.value);
        treeCode := 0;
        var code := GetCommandCode(Keywords(text));
        var handler := FindHandler(code);
        SelectedFirst(tokens, codes, magic, rest.value, text, next);
        SelectedOn(ran, handler,
                   if next.None? then [] else SelectedAll(tokens, codes, magic, Commands([], next.value)));
        ran := ran + [handler];
        rest := next;
      }
    }

    // The first handler registered for a code.
    method FindHandler(code: nat) returns (handler: Option<nat>)
      ensures handler == FirstCode(codes, code, 0)
    {
      var i := 0;
      while i < |codes| && codes[i] != code
        invariant i <= |codes| && FirstCode(codes, code, i) == FirstCode(codes, code, 0)
      {
        i := i + 1;
      }
      handler := if i < |codes| then Some(i) else None;
    }

    static method CutAtSemicolon(message: string) returns (text: string, rest: Option<string>)
      ensures forall i :: 0 <= i < |text| ==> text[i] != ';'
      ensures message == if rest.None? then text else text + (";" + rest.value)
    {
      var i := 0;
      while i < |message| && message[i] != ';'
        invariant i <= |message| && forall k :: 0 <= k < i ==> message[k] != ';'
      {
        i := i + 1;
      }
      text := message[..i];
      rest := if i < |message| then Some(message[i + 1..]) else None;
    }
  }

  lemma ShortIs(token: string, n: nat)
    requires n <= |token| && (forall k :: 0 <= k < n ==> IsUpper(token[k]))
    requires n < |token| ==> !IsUpper(token[n])
    ensures n == ShortLength(token)
  {
    ShortCapitals(token);
  }

  // What is left of a code when the keywords hs are still to come.
  function Rest(tokens: seq<string>, hs: seq<string>, code: nat, magic: nat): Option<nat> {
    match Indices(tokens, hs)
    case None => None
    case Some(js) => Some(Horner(code, js, magic))
  }

  lemma NoCode(tokens: seq<string>, treeCode: nat, magic: nat, commands: seq<string>)
    requires Rest(tokens, Headers(commands), Start(treeCode), magic) == None
    ensures Code(tokens, treeCode, magic, commands) == UNKNOWN
  {
  }

  lemma CodeReached(tokens: seq<string>, treeCode: nat, magic: nat, commands: seq<string>, code: nat)
    requires Rest(tokens, Headers(commands), Start(treeCode), magic) == Rest(tokens, [], code, magic)
    ensures Code(tokens, treeCode, magic, commands) == Final(code, IsQuery(commands))
  {
  }

  lemma RestStep(tokens: seq<string>, hs: seq<string>, code: nat, magic: nat)
    requires hs != []
    ensures var j := FirstFrom(tokens, hs[0], 0);
            Rest(tokens, hs, code, magic) ==
            if j.None? then None else Rest(tokens, hs[1..], Hash(code, j.value, magic), magic)
  {
    var j, rest := FirstFrom(tokens, hs[0], 0), Indices(tokens, hs[1..]);
    if j.Some? && rest.Some? {
      assert ([j.value] + rest.value)[1..] == rest.value;
    }
  }

  lemma RestAt(tokens: seq<string>, hs: seq<string>, i: nat, code: nat, magic: nat)
    requires i < |hs|
    ensures var j := FirstFrom(tokens, hs[i], 0);
            Rest(tokens, hs[i..], code, magic) ==
            if j.None? then None else Rest(tokens, hs[i + 1..], Hash(code, j.value, magic), magic)
  {
    RestStep(tokens, hs[i..], code, magic);
    assert hs[i..][1..] == hs[i + 1..];
  }

  lemma SelectedFirst(tokens: seq<string>, codes: seq<nat>, magic: nat, message: string, text: string,
                      rest: Option<string>)
    requires forall i :: 0 <= i < |text| ==> text[i] != ';'
    requires message == if rest.None? then text else text + (";" + rest.value)
    ensures SelectedAll(tokens, codes, magic, Commands([], message)) ==
            [Selected(tokens, codes, magic, text)]
            + if rest.None? then [] else SelectedAll(tokens, codes, magic, Commands([], rest.value))
  {
    CommandsSplit([], text, if rest.None? then [] else rest.value);
    assert [] + text == text;
    var more := if rest.None? then [] else Commands([], rest.value);
    assert ([text] + more)[1..] == more;
    assert [text] == [text] + [];
  }

  lemma SelectedOn(ran: seq<Option<nat>>, handler: Option<nat>, more: seq<Option<nat>>)
    ensures ran + ([handler] + more) == ran + [handler] + more
    ensures ran + [] == ran
  {
  }
}
