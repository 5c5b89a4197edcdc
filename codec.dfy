/**
 * The line protocol between the engine and a bot: the one-clause codes the
 * engine emits for each action (`F`, `C`, `K`, `R<amount>`), the decoding of
 * a bot's reply clause, and the text primitives they rest on — decimal
 * integers as Python's `str` writes them and `int` reads them, whitespace
 * stripping, and space-separated messages.
 */
module Codec {
  import opened Actions

  // ---------------------------------------------------------------- decimal integers

  predicate IsDigit(c: char) { '0' <= c <= '9' }

  function DigitChar(d: nat): (c: char)
    requires d < 10
    ensures IsDigit(c) && c as int - '0' as int == d
  {
    ('0' as int + d) as char
  }

  function DigitValue(c: char): (d: nat)
    requires IsDigit(c)
  {
    c as int - '0' as int
  }

  /** The decimal digits of `n`, most significant first, with no leading zero. */
  function NatToDigits(n: nat): (ds: string)
    ensures |ds| > 0 && forall i :: 0 <= i < |ds| ==> IsDigit(ds[i])
    ensures |ds| > 1 ==> ds[0] != '0'
    decreases n
  {
    if n < 10 then [DigitChar(n)] else NatToDigits(n / 10) + [DigitChar(n % 10)]
  }

  /** The number a string of decimal digits denotes. */
  function DigitsValue(ds: string): (n: nat)
    requires forall i :: 0 <= i < |ds| ==> IsDigit(ds[i])
    decreases |ds|
  {
    if ds == [] then 0 else DigitsValue(ds[..|ds| - 1]) * 10 + DigitValue(ds[|ds| - 1])
  }

  /** Reading back the digits of `n` gives `n`. */
  lemma {:induction false} DigitsRoundTrip(n: nat)
    ensures DigitsValue(NatToDigits(n)) == n
    decreases n
  {
    if n >= 10 {
      DigitsRoundTrip(n / 10);
      var ds := NatToDigits(n);
      assert ds[..|ds| - 1] == NatToDigits(n / 10);
    }
  }

  /** Python's `str` on an int: an optional minus sign, then the digits. */
  function IntToString(i: int): (s: string) {
    if i < 0 then "-" + NatToDigits(-i) else NatToDigits(i)
  }

  // ---------------------------------------------------------------- whitespace

  /** The characters Python's `str.isspace` accepts. */
  predicate IsSpace(c: char) {
    var k := c as int;
    (9 <= k <= 13) || (28 <= k <= 32) || k == 0x85 || k == 0xA0 || k == 0x1680 ||
    (0x2000 <= k <= 0x200A) || k == 0x2028 || k == 0x2029 || k == 0x202F ||
    k == 0x205F || k == 0x3000
  }

  function TrimLeft(s: string): (t: string)
    decreases |s|
  {
    if s != [] && IsSpace(s[0]) then TrimLeft(s[1..]) else s
  }

  function TrimRight(s: string): (t: string)
    decreases |s|
  {
    if s != [] && IsSpace(s[|s| - 1]) then TrimRight(s[..|s| - 1]) else s
  }

  /** Python's `str.strip()` with no argument. */
  function Strip(s: string): (t: string) {
    TrimRight(TrimLeft(s))
  }

  /** Trimming on the left drops a run of blanks and keeps the rest, which starts with a non-blank. */
  lemma {:induction false} TrimLeftShape(s: string)
    ensures var t := TrimLeft(s);
      && |t| <= |s| && t == s[|s| - |t|..]
      && (t != [] ==> !IsSpace(t[0]))
      && (forall i :: 0 <= i < |s| - |t| ==> IsSpace(s[i]))
    decreases |s|
  {
    if s != [] && IsSpace(s[0]) {
      TrimLeftShape(s[1..]);
      var t := TrimLeft(s);
      forall i | 0 <= i < |s| - |t|
        ensures IsSpace(s[i])
      {
        if i > 0 { assert s[i] == s[1..][i - 1]; }
      }
    }
  }

  /** Trimming on the right drops a run of blanks and keeps the rest, which ends with a non-blank. */
  lemma {:induction false} TrimRightShape(s: string)
    ensures var t := TrimRight(s);
      && |t| <= |s| && t == s[..|t|]
      && (t != [] ==> !IsSpace(t[|t| - 1]))
      && (forall i :: |t| <= i < |s| ==> IsSpace(s[i]))
    decreases |s|
  {
    if s != [] && IsSpace(s[|s| - 1]) {
      var front := s[..|s| - 1];
      TrimRightShape(front);
      var t := TrimRight(s);
      assert t == TrimRight(front);
      assert front[..|t|] == s[..|t|];
      forall i | |t| <= i < |s|
        ensures IsSpace(s[i])
      {
        if i < |s| - 1 { assert s[i] == front[i]; }
      }
    }
  }

  /** Stripping removes exactly the leading and trailing whitespace and keeps the middle. */
  lemma StripShape(s: string)
    ensures var t := Strip(s);
      && (t != [] ==> !IsSpace(t[0]) && !IsSpace(t[|t| - 1]))
      && exists lo, hi :: 0 <= lo <= hi <= |s| && t == s[lo..hi] &&
           (forall i :: 0 <= i < lo ==> IsSpace(s[i])) &&
           (forall i :: hi <= i < |s| ==> IsSpace(s[i]))
  {
    var l := TrimLeft(s);
    var t := TrimRight(l);
    TrimLeftShape(s);
    TrimRightShape(l);
    var lo := |s| - |l|;
    var hi := lo + |t|;
    assert t == s[lo..hi];
    forall i | hi <= i < |s|
      ensures IsSpace(s[i])
    {
      assert s[i] == l[i - lo];
    }
    if t != [] {
      assert t[0] == l[0];
    }
  }

  lemma StripNoSpace(s: string)
    requires s != [] && !IsSpace(s[0]) && !IsSpace(s[|s| - 1])
    ensures Strip(s) == s
  {
  }

  /** Stripping a clause followed by a line break gives the clause back when its ends are not blank. */
  lemma StripLine(s: string)
    requires s != [] && !IsSpace(s[0]) && !IsSpace(s[|s| - 1])
    ensures Strip(s + "\n") == s
  {
    var line := s + "\n";
    assert TrimLeft(line) == line;
    assert line[..|line| - 1] == s && IsSpace(line[|line| - 1]);
    assert TrimRight(line) == TrimRight(s) == s;
  }

  // ---------------------------------------------------------------- Python int()

  /** Python's integer digit grammar: digits, with single underscores only between digits. */
  predicate IsDecimalLiteral(s: string) {
    && s != []
    && IsDigit(s[0]) && IsDigit(s[|s| - 1])
    && (forall i :: 0 <= i < |s| ==> IsDigit(s[i]) || s[i] == '_')
    && (forall i :: 0 <= i < |s| - 1 ==> !(s[i] == '_' && s[i + 1] == '_'))
  }

  function RemoveUnderscores(s: string): (ds: string)
    requires forall i :: 0 <= i < |s| ==> IsDigit(s[i]) || s[i] == '_'
    ensures forall i :: 0 <= i < |ds| ==> IsDigit(ds[i])
    ensures (forall i :: 0 <= i < |s| ==> IsDigit(s[i])) ==> ds == s
    decreases |s|
  {
    if s == [] then []
    else if s[0] == '_' then RemoveUnderscores(s[1..])
    else [s[0]] + RemoveUnderscores(s[1..])
  }

  /**
   * The information separators U+001C to U+001F. `str.isspace`, and so
   * `strip`, counts them as blanks; `int` does not, and takes them neither
   * around the number nor inside it.
   */
  predicate IsSeparator(c: char) {
    28 <= c as int <= 31
  }

  /**
   * Python's `int` on a string in base 10: surrounding whitespace (the
   * `str.isspace` blanks other than the separators), an optional sign, then
   * a decimal literal; anything else is a `ValueError`, here `None`.
   */
  function ParseInt(s: string): (r: Option<int>) {
    if exists k :: 0 <= k < |s| && IsSeparator(s[k]) then None
    else ParseSigned(Strip(s))
  }

  /** An optional sign, then a decimal literal. */
  function ParseSigned(t: string): (r: Option<int>) {
    if t == [] then None
    else if t[0] == '-' then
      match ParseDigits(t[1..])
      case None => None
      case Some(n) => Some(-n)
    else if t[0] == '+' then ParseDigits(t[1..])
    else ParseDigits(t)
  }

  function ParseDigits(body: string): (r: Option<int>)
    ensures r.Some? ==> r.value >= 0
  {
    if IsDecimalLiteral(body) then Some(DigitsValue(RemoveUnderscores(body))) else None
  }

  /** The digits `str` writes for a natural number read back as that number. */
  lemma ParseDigitsOf(n: nat)
    ensures ParseDigits(NatToDigits(n)) == Some(n)
  {
    var ds := NatToDigits(n);
    DigitsRoundTrip(n);
    assert IsDecimalLiteral(ds);
    assert RemoveUnderscores(ds) == ds;
  }

  /** What `str` writes, `int` reads back. */
  lemma ParseIntRoundTrip(i: int)
    ensures ParseInt(IntToString(i)) == Some(i)
  {
    var s := IntToString(i);
    var m: nat := if i < 0 then -i else i;
    var ds := NatToDigits(m);
    ParseDigitsOf(m);
    assert forall k :: 0 <= k < |s| ==> !IsSeparator(s[k]) by {
      forall k | 0 <= k < |s|
        ensures !IsSeparator(s[k])
      {
        if i < 0 && k > 0 {
          assert s[k] == ds[k - 1];
        }
      }
    }
    assert s != [] && !IsSpace(s[0]) && !IsSpace(s[|s| - 1]);
    StripNoSpace(s);
    if i < 0 {
      assert s[0] == '-' && s[1..] == ds;
    } else {
      assert s == ds && IsDigit(s[0]);
    }
  }

  /** `int` rejects a blank string and one whose first non-blank is neither a sign nor a digit. */
  lemma ParseIntRejects(s: string)
    requires var t := Strip(s);
      t == [] || (t[0] != '-' && t[0] != '+' && !IsDigit(t[0]))
    ensures ParseInt(s) == None
  {
  }

  /** Python's `int` takes blanks around the number, a plus sign and single underscores. */
  lemma ParseIntAccepts()
    ensures ParseInt(" +1_000\t") == Some(1000)
  {
    var s := " +1_000\t";
    var l := "+1_000\t";
    assert s[1..] == l && !IsSpace(l[0]);
    assert TrimLeft(s) == l;
    assert l[..|l| - 1] == "+1_000";
    assert TrimRight(l) == "+1_000";
    var body := "1_000";
    assert "+1_000"[0] == '+' && "+1_000"[1..] == body;
    DecimalThousand();
  }

  /** `strip` removes a leading U+001C, but `int` refuses it: `int("\x1c5")` is a `ValueError`. */
  lemma ParseIntRefusesSeparator()
    ensures Strip("\U{1c}5") == "5"
    ensures ParseInt("\U{1c}5") == None
  {
    var s := "\U{1c}5";
    assert IsSpace(s[0]) && s[1..] == "5";
    assert TrimLeft("5") == "5";
    assert TrimRight("5") == "5" by { assert !IsSpace('5'); }
    assert IsSeparator(s[0]);
  }

  lemma DecimalThousand()
    ensures ParseDigits("1_000") == Some(1000)
  {
    ThousandLiteral();
    ThousandUnderscore();
    ThousandValue();
  }

  lemma ThousandLiteral()
    ensures IsDecimalLiteral("1_000")
  {
    var body := "1_000";
    assert body[0] == '1' && body[1] == '_' && body[2] == '0' && body[3] == '0' && body[4] == '0';
  }

  lemma ThousandUnderscore()
    ensures RemoveUnderscores("1_000") == "1000"
  {
    var body := "1_000";
    assert body[1..] == "_000" && "_000"[1..] == "000";
    assert RemoveUnderscores("000") == "000";
  }

  lemma ThousandValue()
    ensures DigitsValue("1000") == 1000
  {
    assert DigitsValue("1") == 1 by { assert "1"[..0] == ""; }
    assert DigitsValue("10") == 10 by { assert "10"[..1] == "1"; }
    assert DigitsValue("100") == 100 by { assert "100"[..2] == "10"; }
    assert "1000"[..3] == "100";
  }

  /** Python's `int` takes a minus sign and leading zeros. */
  lemma ParseIntLeadingZero()
    ensures ParseInt("-07") == Some(-7)
  {
    StripNoSpace("-07");
    assert "-07"[0] == '-' && "-07"[1..] == "07";
    assert IsDecimalLiteral("07");
    assert RemoveUnderscores("07") == "07";
    assert "07"[..1] == "0" && "0"[..0] == "";
  }

  /** Python's `int` refuses doubled, leading or trailing underscores and blanks inside the number. */
  lemma ParseIntRefuses()
    ensures ParseInt("1__0") == None
    ensures ParseInt("_1") == None
    ensures ParseInt("1 0") == None
  {
    RefusedBody("1__0", 1);
    RefusedBody("_1", 0);
    RefusedBody("1 0", 1);
  }

  /** A blank-free string with no sign whose character at `k` breaks the digit grammar is refused. */
  lemma RefusedBody(s: string, k: nat)
    requires s != [] && !IsSpace(s[0]) && !IsSpace(s[|s| - 1])
    requires s[0] != '-' && s[0] != '+'
    requires k < |s|
    requires (k == 0 && !IsDigit(s[0])) ||
             (k + 1 < |s| && s[k] == '_' && s[k + 1] == '_') ||
             (!IsDigit(s[k]) && s[k] != '_')
    ensures ParseInt(s) == None
  {
    StripNoSpace(s);
    assert !IsDecimalLiteral(s);
    assert ParseSigned(s) == ParseDigits(s);
  }

  // ---------------------------------------------------------------- action codes

  /** The tag table: which action class each reply letter names. */
  function DecodeTag(c: char): (r: Option<ActionKind>)
    ensures r.Some? <==> c in "FCKR"
  {
    match c
    case 'F' => Some(Fold)
    case 'C' => Some(Call)
    case 'K' => Some(Check)
    case 'R' => Some(Raise)
    case _ => None
  }

  function KindTag(kind: ActionKind): (tag: char) {
    match kind
    case Fold => 'F'
    case Call => 'C'
    case Check => 'K'
    case Raise => 'R'
  }

  /** The clause the engine appends to every player's history for an action. */
  function Code(a: Action): (clause: string)
    ensures |clause| > 0 && clause[0] == KindTag(a.Kind())
  {
    match a
    case FoldAction => "F"
    case CallAction => "C"
    case CheckAction => "K"
    case RaiseAction(amount) => "R" + IntToString(amount)
  }

  /** Reading a clause the way a reply is read: the tag picks the class, a raise parses its amount. */
  function Decode(clause: string): (r: Option<Action>)
    ensures r.Some? ==> |clause| > 0 && DecodeTag(clause[0]) == Some(r.value.Kind())
  {
    if clause == [] then None
    else match DecodeTag(clause[0])
      case None => None
      case Some(kind) =>
        if kind != Raise then Some(KindAction(kind))
        else match ParseInt(clause[1..])
          case None => None
          case Some(amount) => Some(RaiseAction(amount))
  }

  /** Tags and kinds are inverse tables. */
  lemma TagRoundTrip(kind: ActionKind)
    ensures DecodeTag(KindTag(kind)) == Some(kind)
  {
  }

  /** Decoding an emitted code gives back the action: the same kind and, for a raise, the same amount. */
  lemma CodeRoundTrip(a: Action)
    ensures Decode(Code(a)) == Some(a)
  {
    if a.RaiseAction? {
      RaiseCodeRoundTrip(a.amount);
    }
  }

  lemma RaiseCodeRoundTrip(amount: int)
    ensures Decode("R" + IntToString(amount)) == Some(RaiseAction(amount))
  {
    ParseIntRoundTrip(amount);
    RaiseClause(IntToString(amount), amount);
  }

  /** An `R` followed by text that parses to `amount` decodes to a raise of `amount`. */
  lemma RaiseClause(digits: string, amount: int)
    requires ParseInt(digits) == Some(amount)
    ensures Decode("R" + digits) == Some(RaiseAction(amount))
  {
    var clause := "R" + digits;
    assert clause[0] == 'R' && clause[1..] == digits;
  }

  /** An emitted code has no space in it and no blank at either end. */
  lemma CodeIsOneClause(a: Action)
    ensures ' ' !in Code(a)
    ensures !IsSpace(Code(a)[0]) && !IsSpace(Code(a)[|Code(a)| - 1])
  {
    if a.RaiseAction? {
      var i := a.amount;
      var ds := NatToDigits(if i < 0 then -i else i);
      assert Code(a) == "R" + IntToString(i);
      assert forall k :: 0 <= k < |ds| ==> ds[k] != ' ';
    }
  }

  // ---------------------------------------------------------------- reply judgement

  /** The fate of a reply clause, in the order the engine tests it. */
  datatype Verdict = Accepted(action: Action) | Illegal(kind: ActionKind) | Misformatted

  /**
   * Validates a stripped reply clause against the legal set and raise bounds:
   * an empty clause or an unknown tag is misformatted, an illegal kind is
   * reported by name, and a raise must parse and lie within the bounds.
   */
  function Judge(clause: string, legal: set<ActionKind>, minRaise: int, maxRaise: int): (v: Verdict)
    ensures v.Accepted? ==> v.action.Kind() in legal
    ensures v.Accepted? && v.action.RaiseAction? ==> minRaise <= v.action.amount <= maxRaise
  {
    if clause == [] then Misformatted
    else match DecodeTag(clause[0])
      case None => Misformatted
      case Some(kind) =>
        if kind !in legal then Illegal(kind)
        else if kind != Raise then Accepted(KindAction(kind))
        else match ParseInt(clause[1..])
          case None => Misformatted
          case Some(amount) =>
            if minRaise <= amount <= maxRaise then Accepted(RaiseAction(amount)) else Illegal(Raise)
  }

  /** A clause is accepted exactly when it decodes to a legal action, within the bounds for a raise. */
  lemma JudgeAccepts(clause: string, legal: set<ActionKind>, minRaise: int, maxRaise: int, a: Action)
    ensures Judge(clause, legal, minRaise, maxRaise) == Accepted(a) <==>
      && Decode(clause) == Some(a)
      && a.Kind() in legal
      && (a.RaiseAction? ==> minRaise <= a.amount <= maxRaise)
  {
  }

  /**
   * The kind is checked before a raise amount is parsed: a clause is misformatted exactly when it
   * does not decode and its tag, if any, names a legal kind; an illegal verdict names the tag's kind,
   * which is either not legal or a raise whose amount is out of bounds.
   */
  lemma JudgeRejects(clause: string, legal: set<ActionKind>, minRaise: int, maxRaise: int)
    ensures var tagged := clause != [] && DecodeTag(clause[0]).Some?;
      Judge(clause, legal, minRaise, maxRaise) == Misformatted <==>
        Decode(clause) == None && (!tagged || DecodeTag(clause[0]).value in legal)
    ensures var v := Judge(clause, legal, minRaise, maxRaise);
      v.Illegal? ==>
        && clause != [] && DecodeTag(clause[0]) == Some(v.kind)
        && (v.kind !in legal ||
            (v.kind == Raise && Decode(clause).Some? && !(minRaise <= Decode(clause).value.amount <= maxRaise)))
  {
  }

  /** Only the first letter of a fold, call or check reply is read: whatever follows it is ignored. */
  lemma JudgeIgnoresTail(kind: ActionKind, rest: string, legal: set<ActionKind>, minRaise: int, maxRaise: int)
    requires kind != Raise && kind in legal
    ensures Judge([KindTag(kind)] + rest, legal, minRaise, maxRaise) == Accepted(KindAction(kind))
  {
    assert ([KindTag(kind)] + rest)[0] == KindTag(kind);
  }

  /** A bot that echoes the engine's code for an action, on its own line, gets that action judged. */
  lemma EchoedCode(a: Action, legal: set<ActionKind>, minRaise: int, maxRaise: int)
    ensures var v := Judge(Strip(Code(a) + "\n"), legal, minRaise, maxRaise);
      && (a.Kind() in legal && (a.RaiseAction? ==> minRaise <= a.amount <= maxRaise) ==> v == Accepted(a))
      && (a.Kind() !in legal ==> v == Illegal(a.Kind()))
      && (a.Kind() in legal && a.RaiseAction? && !(minRaise <= a.amount <= maxRaise) ==> v == Illegal(Raise))
  {
    CodeIsOneClause(a);
    StripLine(Code(a));
    CodeRoundTrip(a);
    JudgeAccepts(Code(a), legal, minRaise, maxRaise, a);
    JudgeRejects(Code(a), legal, minRaise, maxRaise);
  }

  // ---------------------------------------------------------------- messages

  /** Python's `' '.join(clauses)`. */
  function Join(clauses: seq<string>): (message: string)
    decreases |clauses|
  {
    if clauses == [] then ""
    else if |clauses| == 1 then clauses[0]
    else clauses[0] + " " + Join(clauses[1..])
  }

  /** The index of the first space in `s`, or |s| when there is none. */
  function FirstSpace(s: string): (k: nat)
    ensures k <= |s| && ' ' !in s[..k] && (k < |s| ==> s[k] == ' ')
    decreases |s|
  {
    if s == [] then 0
    else if s[0] == ' ' then 0
    else
      var k := 1 + FirstSpace(s[1..]);
      assert s[..k] == [s[0]] + s[1..][..k - 1];
      k
  }

  /** Python's `s.split(' ')`: the pieces between spaces, empty pieces included. */
  function Split(s: string): (pieces: seq<string>)
    ensures |pieces| > 0
    decreases |s|
  {
    var k := FirstSpace(s);
    if k == |s| then [s] else [s[..k]] + Split(s[k + 1..])
  }

  /** A non-empty list of clauses without spaces is recovered from its joined message. */
  lemma {:induction false} SplitJoin(clauses: seq<string>)
    requires |clauses| > 0
    requires forall i :: 0 <= i < |clauses| ==> ' ' !in clauses[i]
    ensures Split(Join(clauses)) == clauses
    decreases |clauses|
  {
    var c := clauses[0];
    if |clauses| == 1 {
      FirstSpaceOfClause(c, "");
      assert FirstSpace(c) == |c|;
    } else {
      var rest := Join(clauses[1..]);
      var s := c + " " + rest;
      FirstSpaceOfClause(c, " " + rest);
      assert s == c + (" " + rest);
      assert FirstSpace(s) == |c|;
      assert s[..|c|] == c;
      assert s[|c| + 1..] == rest;
      SplitJoin(clauses[1..]);
    }
  }

  /** A clause without spaces ends at the first space of whatever follows it. */
  lemma {:induction false} FirstSpaceOfClause(c: string, tail: string)
    requires ' ' !in c
    requires tail == [] || tail[0] == ' '
    ensures FirstSpace(c + tail) == |c|
    decreases |c|
  {
    if c != [] {
      assert (c + tail)[1..] == c[1..] + tail;
      FirstSpaceOfClause(c[1..], tail);
    }
  }
}
