/** `formatDiscordIdsInValue` of public/script.js: in a form field whose label
    speaks of a Discord id, every match of the global regular expression
    `/\d{15,20}/g` is replaced by a Discord mention `<@digits>`.

    The replacement is modelled as the regular-expression engine performs it:
    `Scan` cuts the value into pieces, left to right, taking at each position
    the greedy match (up to 20 digits, at least 15) when there is one and
    passing over one character otherwise; `Render` writes each match in its
    mention wrapper; `Unwrap` writes each match as it was. In JavaScript
    without the `u` flag, `\d` is exactly the ASCII digits. */
module Mentions {
  import opened Js

  const MinIdDigits := 15
  const MaxIdDigits := 20

  predicate IsDigit(c: char) {
    '0' <= c <= '9'
  }

  predicate AllDigits(s: string) {
    forall i :: 0 <= i < |s| ==> IsDigit(s[i])
  }

  /** The number of digits `s` starts with. */
  function DigitRun(s: string): (n: nat)
    ensures n <= |s|
    ensures AllDigits(s[..n])
    ensures n < |s| ==> !IsDigit(s[n])
    decreases |s|
  {
    if s != [] && IsDigit(s[0]) then
      var n := 1 + DigitRun(s[1..]);
      assert s[..n] == [s[0]] + s[1..][..n - 1];
      n
    else 0
  }

  /** A piece of the scanned value: a character the expression passed over,
      or one match. */
  datatype Piece = Plain(c: char) | Match(digits: string)

  /** A match is 15 to 20 digits. */
  predicate IsId(s: string) {
    MinIdDigits <= |s| <= MaxIdDigits && AllDigits(s)
  }

  /** The text a piece stands for in the original value. */
  function Original(p: Piece): string {
    match p
    case Plain(c) => [c]
    case Match(digits) => digits
  }

  /** The text a piece is replaced by: the replacement callback
      `(id) => `<@${id}>`` for a match, the character itself otherwise. */
  function Replaced(p: Piece): string {
    match p
    case Plain(c) => [c]
    case Match(digits) => "<@" + digits + ">"
  }

  /** The pieces written as they stood in the value: every inserted `<@` and
      `>` deleted. */
  function Unwrap(ps: seq<Piece>): string
    decreases |ps|
  {
    if ps == [] then "" else Original(ps[0]) + Unwrap(ps[1..])
  }

  /** The pieces written with every match wrapped. */
  function Render(ps: seq<Piece>): string
    decreases |ps|
  {
    if ps == [] then "" else Replaced(ps[0]) + Render(ps[1..])
  }

  lemma RenderCons(p: Piece, ps: seq<Piece>)
    ensures Render([p] + ps) == Replaced(p) + Render(ps)
    ensures Unwrap([p] + ps) == Original(p) + Unwrap(ps)
  {
    assert ([p] + ps)[1..] == ps;
  }

  /** Between 15 and 20 of the digits a value starts with form an id. */
  lemma IdPrefix(s: string, k: nat)
    requires MinIdDigits <= k <= MaxIdDigits && k <= DigitRun(s)
    ensures IsId(s[..k])
  {
    assert s[..k] == s[..DigitRun(s)][..k];
  }

  /** How far the search moves from the start of a non-empty value: past
      the match when there is one, else past one character. */
  function Step(s: string): (k: nat)
    requires s != []
    ensures 0 < k <= |s|
  {
    var n := DigitRun(s);
    if n >= MinIdDigits then (if n < MaxIdDigits then n else MaxIdDigits) else 1
  }

  /** The piece the search produces at the start of a non-empty value. */
  function Head(s: string): Piece
    requires s != []
  {
    if DigitRun(s) >= MinIdDigits then Match(s[..Step(s)]) else Plain(s[0])
  }

  /** The piece at the start stands for exactly the characters the step
      passes over. */
  lemma HeadOriginal(s: string)
    requires s != []
    ensures Original(Head(s)) == s[..Step(s)]
  {
    if DigitRun(s) < MinIdDigits {
      assert s[..1] == [s[0]];
    }
  }

  /** The left-to-right search of `/\d{15,20}/g`, one piece per step. */
  function Scan(s: string): seq<Piece>
    decreases |s|
  {
    if s == [] then [] else [Head(s)] + Scan(s[Step(s)..])
  }

  /** The replacement only inserts wrappers: deleting them from the pieces
      gives the value back, with no character dropped or moved. */
  lemma {:induction false} ScanUnwrap(s: string)
    ensures Unwrap(Scan(s)) == s
    decreases |s|
  {
    if s != [] {
      UnwrapScanStep(s);
      ScanUnwrap(s[Step(s)..]);
      SliceJoin(s, Step(s));
    }
  }

  lemma SliceJoin(s: string, k: nat)
    requires k <= |s|
    ensures s[..k] + s[k..] == s
  {
  }

  lemma UnwrapScanStep(s: string)
    requires s != []
    ensures Unwrap(Scan(s)) == s[..Step(s)] + Unwrap(Scan(s[Step(s)..]))
  {
    ScanUnfold(s);
    RenderCons(Head(s), Scan(s[Step(s)..]));
    HeadOriginal(s);
  }

  /** Every match the search finds is 15 to 20 digits. */
  lemma {:induction false} ScanMatchesAreIds(s: string)
    ensures forall i :: 0 <= i < |Scan(s)| && Scan(s)[i].Match? ==> IsId(Scan(s)[i].digits)
    decreases |s|
  {
    if s != [] {
      var rest := Scan(s[Step(s)..]);
      ScanMatchesAreIds(s[Step(s)..]);
      ScanUnfold(s);
      if Head(s).Match? {
        IdPrefix(s, Step(s));
      }
      assert forall i :: 1 <= i < |Scan(s)| ==> Scan(s)[i] == rest[i - 1];
    }
  }

  lemma ScanUnfold(s: string)
    requires s != []
    ensures Scan(s) == [Head(s)] + Scan(s[Step(s)..])
  {
  }

  /** `value.replace(/\d{15,20}/g, (id) => `<@${id}>`)` */
  function WrapIds(s: string): string {
    Render(Scan(s))
  }

  lemma {:induction false} RenderAppend(ps: seq<Piece>, qs: seq<Piece>)
    ensures Render(ps + qs) == Render(ps) + Render(qs)
    decreases |ps|
  {
    if ps == [] {
      assert ps + qs == qs;
    } else {
      assert (ps + qs)[0] == ps[0];
      assert (ps + qs)[1..] == ps[1..] + qs;
      RenderAppend(ps[1..], qs);
    }
  }

  /** A digit run that stops inside `a` is not lengthened by what follows. */
  lemma {:induction false} DigitRunAppend(a: string, b: string)
    requires a != [] && !IsDigit(a[|a| - 1])
    ensures DigitRun(a + b) == DigitRun(a) < |a|
    decreases |a|
  {
    if IsDigit(a[0]) {
      assert |a| > 1;
      assert (a + b)[1..] == a[1..] + b;
      DigitRunAppend(a[1..], b);
    }
  }

  /** The first step of the search on `a + b` is its first step on `a`. */
  lemma HeadAppend(a: string, b: string)
    requires a != [] && !IsDigit(a[|a| - 1])
    ensures Step(a + b) == Step(a) <= |a|
    ensures Head(a + b) == Head(a)
    ensures (a + b)[Step(a)..] == a[Step(a)..] + b
  {
    DigitRunAppend(a, b);
    var k := Step(a);
    assert (a + b)[..k] == a[..k];
    assert (a + b)[0] == a[0];
  }

  /** The search does not look past a non-digit: scanning a value that is
      cut right after a non-digit scans the two parts separately. */
  lemma {:induction false} ScanAppend(a: string, b: string)
    requires a == [] || !IsDigit(a[|a| - 1])
    ensures Scan(a + b) == Scan(a) + Scan(b)
    decreases |a|
  {
    if a == [] {
      assert a + b == b;
    } else {
      ScanAppendStep(a, b);
      ScanAppend(a[Step(a)..], b);
      ConsAppend(Head(a), Scan(a[Step(a)..]), Scan(b));
    }
  }

  lemma ConsAppend<T>(x: T, ys: seq<T>, zs: seq<T>)
    ensures [x] + (ys + zs) == ([x] + ys) + zs
  {
  }

  /** One step of the search on `a + b`, for `a` ending in a non-digit: the
      piece of `a`, then the search of what is left of `a` followed by `b`. */
  lemma ScanAppendStep(a: string, b: string)
    requires a != [] && !IsDigit(a[|a| - 1])
    ensures Scan(a) == [Head(a)] + Scan(a[Step(a)..])
    ensures Scan(a + b) == [Head(a)] + Scan(a[Step(a)..] + b)
    ensures a[Step(a)..] == [] || !IsDigit(a[Step(a)..][|a[Step(a)..]| - 1])
  {
    HeadAppend(a, b);
    ScanUnfold(a);
    ScanUnfold(a + b);
  }

  /** The replacement is applied to the parts on either side of a
      non-digit independently. */
  lemma WrapIdsAppend(a: string, b: string)
    requires a == [] || !IsDigit(a[|a| - 1])
    ensures WrapIds(a + b) == WrapIds(a) + WrapIds(b)
  {
    ScanAppend(a, b);
    RenderAppend(Scan(a), Scan(b));
  }

  lemma {:induction false} DigitRunAll(d: string)
    requires AllDigits(d)
    ensures DigitRun(d) == |d|
    decreases |d|
  {
    if d != [] {
      DigitRunAll(d[1..]);
    }
  }

  /** A whole run of digits: shorter than 15 it is left as it is; of 15 to
      20 digits it becomes one mention; longer, its first 20 digits become a
      mention and the rest is searched again, so that it is wrapped only if
      it is itself at least 15 digits long. */
  lemma {:induction false} WrapIdsRun(d: string)
    requires AllDigits(d)
    ensures |d| < MinIdDigits ==> WrapIds(d) == d
    ensures MinIdDigits <= |d| <= MaxIdDigits ==> WrapIds(d) == "<@" + d + ">"
    ensures |d| > MaxIdDigits ==> WrapIds(d) == "<@" + d[..MaxIdDigits] + ">" + WrapIds(d[MaxIdDigits..])
    decreases |d|
  {
    DigitRunAll(d);
    if d == [] {
    } else if |d| < MinIdDigits {
      WrapIdsRun(d[1..]);
      RenderCons(Plain(d[0]), Scan(d[1..]));
      assert d == [d[0]] + d[1..];
    } else if |d| <= MaxIdDigits {
      assert d[..|d|] == d;
      assert d[|d|..] == [];
      assert Scan(d) == [Match(d)];
      RenderCons(Match(d), []);
    } else {
      RenderCons(Match(d[..MaxIdDigits]), Scan(d[MaxIdDigits..]));
    }
  }

  /** The digit run of `d + [c]`, with `d` all digits and `c` not a digit,
      is `d` itself. */
  lemma {:induction false} DigitRunThen(d: string, c: char)
    requires AllDigits(d) && !IsDigit(c)
    ensures DigitRun(d + [c]) == |d|
    decreases |d|
  {
    if d != [] {
      assert (d + [c])[1..] == d[1..] + [c];
      DigitRunThen(d[1..], c);
    }
  }

  /** The search over a digit run ended by a non-digit: the run is searched
      as if it stood alone, and the non-digit is passed over. */
  lemma {:induction false} ScanRunThen(d: string, c: char)
    requires AllDigits(d) && !IsDigit(c)
    ensures Scan(d + [c]) == Scan(d) + [Plain(c)]
    decreases |d|
  {
    var s := d + [c];
    if d == [] {
      assert s == [c];
      assert DigitRun(s) == 0;
      ScanUnfold(s);
      assert s[Step(s)..] == [];
    } else {
      DigitRunThen(d, c);
      DigitRunAll(d);
      var k := Step(d);
      assert Step(s) == k;
      assert s[..k] == d[..k];
      assert Head(s) == Head(d);
      assert s[k..] == d[k..] + [c];
      assert AllDigits(d[k..]);
      ScanRunThen(d[k..], c);
      ScanUnfold(s);
      ScanUnfold(d);
      ConsAppend(Head(d), Scan(d[k..]), [Plain(c)]);
    }
  }

  /** A digit run, a non-digit after it, and the rest of the value: the run
      is replaced as `WrapIdsRun` says, the non-digit is kept, and the rest
      is replaced on its own. So ids separated by any non-digit, such as
      `", "` or a space, are each wrapped. */
  lemma WrapIdsRunThen(d: string, c: char, b: string)
    requires AllDigits(d) && !IsDigit(c)
    ensures WrapIds(d + [c] + b) == WrapIds(d) + [c] + WrapIds(b)
  {
    var a := d + [c];
    calc {
      WrapIds(a + b);
      { ScanAppend(a, b); }
      Render(Scan(a) + Scan(b));
      { RenderAppend(Scan(a), Scan(b)); }
      Render(Scan(a)) + WrapIds(b);
      { ScanRunThen(d, c); }
      Render(Scan(d) + [Plain(c)]) + WrapIds(b);
      { RenderAppend(Scan(d), [Plain(c)]); }
      WrapIds(d) + Render([Plain(c)]) + WrapIds(b);
      { RenderCons(Plain(c), []); }
      WrapIds(d) + [c] + WrapIds(b);
    }
  }

  /** Two ids separated by `", "`, as a user lists several accounts, are
      each wrapped. */
  lemma WrapTwoIds(x: string, y: string)
    requires IsId(x) && IsId(y)
    ensures WrapIds(x + ", " + y) == "<@" + x + ">, <@" + y + ">"
  {
    calc {
      WrapIds(x + ", " + y);
      { assert x + ", " + y == x + [','] + (" " + y); }
      WrapIds(x + [','] + (" " + y));
      { WrapIdsRunThen(x, ',', " " + y); }
      WrapIds(x) + [','] + WrapIds(" " + y);
      { WrapIdsAppend(" ", y); SpaceKept(); }
      WrapIds(x) + [','] + (" " + WrapIds(y));
      { WrapIdsRun(x); WrapIdsRun(y); }
      "<@" + x + ">, <@" + y + ">";
    }
  }

  /** A lone space is not touched. */
  lemma SpaceKept()
    ensures WrapIds(" ") == " "
  {
    ScanUnfold(" ");
    assert DigitRun(" ") == 0;
    assert " "[1..] == [];
    RenderCons(Plain(' '), []);
  }

  /** No digit run of the value reaches 15 digits. */
  predicate NoIdRun(s: string) {
    forall i :: 0 <= i < |s| ==> DigitRun(s[i..]) < MinIdDigits
  }

  /** A value whose digit runs are all shorter than 15 comes back unchanged. */
  lemma {:induction false} WrapIdsNoIdRun(s: string)
    requires NoIdRun(s)
    ensures WrapIds(s) == s
    decreases |s|
  {
    if s != [] {
      assert s[0..] == s;
      assert NoIdRun(s[1..]) by {
        forall i | 0 <= i < |s[1..]| ensures DigitRun(s[1..][i..]) < MinIdDigits {
          assert s[1..][i..] == s[i + 1..];
        }
      }
      WrapIdsNoIdRun(s[1..]);
      RenderCons(Plain(s[0]), Scan(s[1..]));
      assert s == [s[0]] + s[1..];
    }
  }

  /** `formatDiscordIdsInValue(fieldLabel, value)`: a falsy value, or a label whose
      lower-cased form does not contain "discord id", gives the value back
      unchanged; otherwise every id in it is wrapped as a mention. */
  function FormatDiscordIds(fieldLabel: string, value: Option<string>): (r: Option<string>)
    ensures !Truthy(value) ==> r == value
    ensures !Includes(Lower(fieldLabel), "discord id") ==> r == value
    ensures Truthy(value) && Includes(Lower(fieldLabel), "discord id") ==> r == Some(WrapIds(value.value))
  {
    if !Truthy(value) then value
    else if !Includes(Lower(fieldLabel), "discord id") then value
    else Some(WrapIds(value.value))
  }

  /** Whatever the fieldLabel, formatting keeps a value present or absent, and
      deleting the inserted wrappers from a formatted value gives the value
      back. */
  lemma FormatOnlyInserts(fieldLabel: string, value: Option<string>)
    ensures FormatDiscordIds(fieldLabel, value).Some? <==> value.Some?
    ensures value.Some? ==> exists ps :: Render(ps) == FormatDiscordIds(fieldLabel, value).value && Unwrap(ps) == value.value
  {
    if value.Some? {
      var v := value.value;
      var r := FormatDiscordIds(fieldLabel, value).value;
      if r == WrapIds(v) {
        ScanUnwrap(v);
      } else {
        assert r == v;
        var ps := Plains(v);
        assert Render(ps) == r && Unwrap(ps) == v;
      }
    }
  }

  /** A value cut into single characters, with no match. */
  function Plains(s: string): (ps: seq<Piece>)
    ensures Render(ps) == s && Unwrap(ps) == s
    decreases |s|
  {
    if s == [] then []
    else
      var rest := Plains(s[1..]);
      RenderCons(Plain(s[0]), rest);
      assert s == [s[0]] + s[1..];
      [Plain(s[0])] + rest
  }

  /** An 18-digit id in a field labelled "Discord ID" becomes a mention; in a
      field with another label it is left as it is. */
  lemma FormatExample()
    ensures FormatDiscordIds("Discord ID", Some(ExampleSnowflake)) == Some("<@" + ExampleSnowflake + ">")
    ensures FormatDiscordIds("Callsign", Some(ExampleSnowflake)) == Some(ExampleSnowflake)
  {
    LabelMatches();
    ExampleMention();
    LabelMisses();
  }

  const ExampleSnowflake := "123456789012345678"

  lemma ExampleIsId()
    ensures IsId(ExampleSnowflake)
  {
  }

  lemma ExampleMention()
    ensures WrapIds(ExampleSnowflake) == "<@" + ExampleSnowflake + ">"
  {
    ExampleIsId();
    WrapIdsRun(ExampleSnowflake);
  }

  lemma LabelMisses()
    ensures !Includes(Lower("Callsign"), "discord id")
  {
    assert |Lower("Callsign")| == 8;
  }

  lemma LabelMatches()
    ensures Includes(Lower("Discord ID"), "discord id")
  {
    var lowered := Lower("Discord ID");
    forall i | 0 <= i < 10 ensures lowered[i] == "discord id"[i] {
      assert lowered[i] == LowerChar("Discord ID"[i]);
    }
    assert lowered == "discord id";
    assert StartsWith(lowered[0..], "discord id");
  }
}
