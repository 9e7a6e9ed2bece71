/** Release tags: the normaliser, the tag printer, and the publisher's version pattern. */
module Releases {
  import opened Text
  import opened Versions

  // ---- the code

  function StripLeft(s: string): string {
    if s != "" && IsPySpace(s[0]) then StripLeft(s[1..]) else s
  }

  function StripRight(s: string): string {
    if s != "" && IsPySpace(s[|s| - 1]) then StripRight(s[..|s| - 1]) else s
  }

  function Strip(s: string): string {
    StripRight(StripLeft(s))
  }

  const TAG := "rust-v"

  function WithoutTag(s: string): string {
    if StartsWith(s, TAG) then s[|TAG|..]
    else if s != "" && s[0] == 'v' then s[1..]
    else s
  }

  datatype Rules = Rules(hotfix: string -> Option<string>, alpha: string -> Option<string>,
                         beta: string -> Option<string>, rc: string -> Option<string>)

  const RULES := Rules(TwoNumbers(Long(Alpha), Short(Alpha)), OneNumber(Long(Alpha), Short(Alpha)),
                       OneNumber(Long(Beta), Short(Beta)), OneNumber(Long(Rc), Short(Rc)))

  function Rewritten(s: string, r: Rules): string {
    Rewrite(Rewrite(Rewrite(Rewrite(s, r.hotfix), r.alpha), r.beta), r.rc)
  }

  /** The normalised form; `None` where the source raises. */
  function Normalize(s: string): Option<string> {
    var n := Rewritten(WithoutTag(Strip(s)), RULES);
    if Parse(n).Some? then Some(n) else None
  }

  function Dashed(p: Pre, rest: string): string {
    "-" + (Long(p) + ("." + rest))
  }

  function ReleaseOf(v: Version): string
    requires |v.base| >= 1
  {
    if v.pre == Some(Alpha) && v.post.Some? then PrintBase(v.base) + Dashed(Alpha, v.number + ("." + v.post.value))
    else if v.pre.Some? && v.post.None? then PrintBase(v.base) + Dashed(v.pre.value, v.number)
    else Print(v)
  }

  function ReleaseVersion(s: string): Option<string> {
    match Normalize(s)
    case None => None
    case Some(n) => (PrintParse(n); Some(ReleaseOf(Parse(n).value)))
  }

  // ---- what the rules do to a release version

  lemma AfterOwnName(name: string, rest: string)
    ensures AfterName("-" + (name + ("." + rest)), name) == Some(rest)
  {
    var s := "-" + (name + ("." + rest));
    assert s[1..] == name + ("." + rest) && (name + ("." + rest))[..|name|] == name;
    assert s[1 + |name|..] == "." + rest && ("." + rest)[1..] == rest;
  }

  lemma AfterOtherName(name: string, other: string, rest: string)
    requires name != "" && other != "" && name[0] != other[0]
    ensures AfterName("-" + (other + rest), name) == None
  {
    var s := "-" + (other + rest);
    assert s[1..] == other + rest && (other + rest)[0] == other[0];
  }

  lemma OneMatches(name: string, short: string, d: string)
    requires IsNumber(d)
    ensures OneNumber(name, short)("-" + (name + ("." + d))) == Some(short + d)
    ensures TwoNumbers(name, short)("-" + (name + ("." + d))) == None
  {
    AfterOwnName(name, d);
    DigitsThen(d, "");
    assert d + "" == d;
  }

  lemma TwoMatch(name: string, short: string, d: string, e: string)
    requires IsNumber(d) && IsNumber(e)
    ensures TwoNumbers(name, short)("-" + (name + ("." + (d + ("." + e))))) == Some(short + (d + (POST + e)))
  {
    AfterOwnName(name, d + ("." + e));
    DigitsThen(d, "." + e);
    assert ("." + e)[1..] == e;
  }

  lemma RulesNeedDash()
    ensures NeedsDash(RULES.hotfix) && NeedsDash(RULES.alpha) && NeedsDash(RULES.beta) && NeedsDash(RULES.rc)
  {
  }

  ghost predicate AllNeedDash(r: Rules) {
    NeedsDash(r.hotfix) && NeedsDash(r.alpha) && NeedsDash(r.beta) && NeedsDash(r.rc)
  }

  lemma NothingToRewrite(s: string, r: Rules)
    requires AllNeedDash(r) && NoDash(s)
    ensures Rewritten(s, r) == s
  {
    RewriteNothing(s, r.hotfix);
    RewriteNothing(s, r.alpha);
    RewriteNothing(s, r.beta);
    RewriteNothing(s, r.rc);
  }

  lemma {:induction false} BaseNoDash(base: seq<string>)
    requires |base| >= 1 && forall i | 0 <= i < |base| :: IsNumber(base[i])
    ensures NoDash(PrintBase(base)) && PrintBase(base) != "" && IsDigit(PrintBase(base)[0])
    ensures IsDigit(PrintBase(base)[|PrintBase(base)| - 1])
  {
    if |base| > 1 {
      BaseNoDash(base[1..]);
    }
  }

  lemma PrintNoDash(v: Version)
    requires Valid(v)
    ensures NoDash(Print(v))
  {
    BaseNoDash(v.base);
    assert v.post.Some? ==> NoDash(v.post.value);
    assert NoDash(v.number) && NoDash(PrintPost(v.post));
    assert v.pre.Some? ==> NoDash(Short(v.pre.value));
  }

  /** The first rule that matches the suffix rewrites it, and leaves nothing for the later ones. */
  lemma HotfixRewritten(b: string, suffix: string, out: string, r: Rules)
    requires AllNeedDash(r) && NoDash(b) && NoDash(out) && r.hotfix(suffix) == Some(out)
    ensures Rewritten(b + suffix, r) == b + out
  {
    RewriteSkips(b, suffix, r.hotfix);
    RewriteNothing(b + out, r.alpha);
    RewriteNothing(b + out, r.beta);
    RewriteNothing(b + out, r.rc);
  }

  lemma AlphaRewritten(b: string, suffix: string, out: string, r: Rules)
    requires AllNeedDash(r) && NoDash(b) && NoDash(out) && suffix != "" && NoDash(suffix[1..])
    requires r.hotfix(suffix) == None && r.alpha(suffix) == Some(out)
    ensures Rewritten(b + suffix, r) == b + out
  {
    RewriteStays(b, suffix, r.hotfix);
    RewriteSkips(b, suffix, r.alpha);
    RewriteNothing(b + out, r.beta);
    RewriteNothing(b + out, r.rc);
  }

  lemma BetaRewritten(b: string, suffix: string, out: string, r: Rules)
    requires AllNeedDash(r) && NoDash(b) && NoDash(out) && suffix != "" && NoDash(suffix[1..])
    requires r.hotfix(suffix) == None && r.alpha(suffix) == None && r.beta(suffix) == Some(out)
    ensures Rewritten(b + suffix, r) == b + out
  {
    RewriteStays(b, suffix, r.hotfix);
    RewriteStays(b, suffix, r.alpha);
    RewriteSkips(b, suffix, r.beta);
    RewriteNothing(b + out, r.rc);
  }

  lemma RcRewritten(b: string, suffix: string, out: string, r: Rules)
    requires AllNeedDash(r) && NoDash(b) && NoDash(out) && suffix != "" && NoDash(suffix[1..])
    requires r.hotfix(suffix) == None && r.alpha(suffix) == None && r.beta(suffix) == None && r.rc(suffix) == Some(out)
    ensures Rewritten(b + suffix, r) == b + out
  {
    RewriteStays(b, suffix, r.hotfix);
    RewriteStays(b, suffix, r.alpha);
    RewriteStays(b, suffix, r.beta);
    RewriteSkips(b, suffix, r.rc);
  }

  /** What the rules say about the suffix of a numbered pre-release. */
  lemma SuffixRules(p: Pre, d: string)
    requires IsNumber(d)
    ensures RULES.hotfix(Dashed(p, d)) == None
    ensures RULES.alpha(Dashed(p, d)) == if p == Alpha then Some(Short(p) + d) else None
    ensures RULES.beta(Dashed(p, d)) == if p == Beta then Some(Short(p) + d) else None
    ensures RULES.rc(Dashed(p, d)) == if p == Rc then Some(Short(p) + d) else None
  {
    OneMatches(Long(p), Short(p), d);
    if p != Alpha {
      AfterOtherName(Long(Alpha), Long(p), "." + d);
    }
    if p != Beta {
      AfterOtherName(Long(Beta), Long(p), "." + d);
    }
    if p != Rc {
      AfterOtherName(Long(Rc), Long(p), "." + d);
    }
  }

  lemma DashedShape(p: Pre, d: string)
    requires IsNumber(d)
    ensures Dashed(p, d) != "" && NoDash(Dashed(p, d)[1..]) && NoDash(Short(p) + d)
  {
    assert NoDash(Long(p)) && NoDash(d);
    assert Dashed(p, d)[1..] == Long(p) + ("." + d);
  }

  lemma NumberedRewritten(b: string, p: Pre, d: string)
    requires NoDash(b) && IsNumber(d)
    ensures Rewritten(b + Dashed(p, d), RULES) == b + (Short(p) + d)
  {
    RulesNeedDash();
    SuffixRules(p, d);
    DashedShape(p, d);
    match p {
      case Alpha => AlphaRewritten(b, Dashed(p, d), Short(p) + d, RULES);
      case Beta => BetaRewritten(b, Dashed(p, d), Short(p) + d, RULES);
      case Rc => RcRewritten(b, Dashed(p, d), Short(p) + d, RULES);
    }
  }

  lemma HotfixNoDash(d: string, e: string)
    requires IsNumber(d) && IsNumber(e)
    ensures NoDash(Short(Alpha) + (d + (POST + e)))
  {
    assert NoDash(d) && NoDash(e) && NoDash(POST) && NoDash(Short(Alpha));
  }

  lemma HotfixCase(b: string, d: string, e: string)
    requires NoDash(b) && IsNumber(d) && IsNumber(e)
    ensures Rewritten(b + Dashed(Alpha, d + ("." + e)), RULES) == b + (Short(Alpha) + (d + (POST + e)))
  {
    RulesNeedDash();
    TwoMatch(Long(Alpha), Short(Alpha), d, e);
    HotfixNoDash(d, e);
    HotfixRewritten(b, Dashed(Alpha, d + ("." + e)), Short(Alpha) + (d + (POST + e)), RULES);
  }

  /** The rules undo the release version. */
  lemma RewriteRelease(v: Version)
    requires Valid(v)
    ensures Rewritten(ReleaseOf(v), RULES) == Print(v)
  {
    BaseNoDash(v.base);
    if v.pre == Some(Alpha) && v.post.Some? {
      HotfixCase(PrintBase(v.base), v.number, v.post.value);
    } else if v.pre.Some? && v.post.None? {
      NumberedRewritten(PrintBase(v.base), v.pre.value, v.number);
      assert v.number + "" == v.number;
    } else {
      RulesNeedDash();
      PrintNoDash(v);
      NothingToRewrite(Print(v), RULES);
    }
  }

  // ---- the ends of a release version

  predicate Solid(s: string) {
    s != "" && IsDigit(s[0]) && IsDigit(s[|s| - 1])
  }

  lemma SolidWith(b: string, s: string)
    requires Solid(b) && (s == "" || IsDigit(s[|s| - 1]))
    ensures Solid(b + s)
  {
  }

  lemma EndsInDigit(prefix: string, number: string)
    requires IsNumber(number)
    ensures var s := prefix + number; s != "" && IsDigit(s[|s| - 1])
  {
  }

  lemma PrintedEnd(v: Version)
    requires Valid(v)
    ensures var s := PrintPre(v.pre, v.number, PrintPost(v.post)); s == "" || IsDigit(s[|s| - 1])
  {
    var post := PrintPost(v.post);
    if v.post.Some? {
      EndsInDigit(POST, v.post.value);
      if v.pre.Some? {
        assert Short(v.pre.value) + (v.number + post) == (Short(v.pre.value) + v.number + POST) + v.post.value;
      }
    } else if v.pre.Some? {
      assert v.number + "" == v.number;
      EndsInDigit(Short(v.pre.value), v.number);
    }
  }

  lemma DashedEnd(p: Pre, text: string)
    requires text != "" && IsDigit(text[|text| - 1])
    ensures var s := Dashed(p, text); s != "" && IsDigit(s[|s| - 1])
  {
  }

  lemma ReleaseSolid(v: Version)
    requires Valid(v)
    ensures Solid(ReleaseOf(v)) && Solid(Print(v))
  {
    BaseNoDash(v.base);
    PrintedEnd(v);
    var b := PrintBase(v.base);
    SolidWith(b, PrintPre(v.pre, v.number, PrintPost(v.post)));
    if v.pre == Some(Alpha) && v.post.Some? {
      EndsInDigit(v.number + ".", v.post.value);
      assert (v.number + ".") + v.post.value == v.number + ("." + v.post.value);
      DashedEnd(Alpha, v.number + ("." + v.post.value));
      SolidWith(b, Dashed(Alpha, v.number + ("." + v.post.value)));
    } else if v.pre.Some? && v.post.None? {
      DashedEnd(v.pre.value, v.number);
      SolidWith(b, Dashed(v.pre.value, v.number));
    }
  }

  lemma StripSolid(s: string)
    requires s != "" && !IsPySpace(s[0]) && !IsPySpace(s[|s| - 1])
    ensures Strip(s) == s
  {
  }

  lemma WithoutTagOf(s: string)
    requires Solid(s)
    ensures WithoutTag(Strip(s)) == s && WithoutTag(Strip(TAG + s)) == s
  {
    StripSolid(s);
    StripSolid(TAG + s);
    assert s[0] != TAG[0];
    assert (TAG + s)[..|TAG|] == TAG && (TAG + s)[|TAG|..] == s;
  }

  /** Normalising the release version of a normalised version, with or without the tag
      prefix, returns the version. */
  lemma NormalizeRelease(v: Version)
    requires Valid(v)
    ensures Normalize(ReleaseOf(v)) == Some(Print(v)) && Normalize(TAG + ReleaseOf(v)) == Some(Print(v))
  {
    ReleaseSolid(v);
    WithoutTagOf(ReleaseOf(v));
    RewriteRelease(v);
    ParsePrint(v);
  }

  /** A normalised version is its own normal form. */
  lemma NormalizedStays(n: string)
    requires Parse(n).Some?
    ensures Normalize(n) == Some(n)
  {
    PrintParse(n);
    var v := Parse(n).value;
    ReleaseSolid(v);
    WithoutTagOf(n);
    PrintNoDash(v);
    RulesNeedDash();
    NothingToRewrite(n, RULES);
  }

  lemma TagRoundTrip(s: string)
    requires Normalize(s).Some?
    ensures Normalize(TAG + ReleaseVersion(s).value) == Normalize(s)
    ensures Normalize(ReleaseVersion(s).value) == Normalize(s)
  {
    var n := Normalize(s).value;
    PrintParse(n);
    NormalizeRelease(Parse(n).value);
  }

  /** Two accepted versions have the same tag exactly when they normalise alike. */
  lemma TagsInjective(s: string, t: string)
    requires Normalize(s).Some? && Normalize(t).Some?
    ensures TAG + ReleaseVersion(s).value == TAG + ReleaseVersion(t).value <==> Normalize(s) == Normalize(t)
  {
    TagRoundTrip(s);
    TagRoundTrip(t);
  }

  // ---- the publisher

  /** Up to `max` dotted numbers and nothing more. */
  predicate DottedNumbers(s: string, max: nat)
    decreases max
  {
    || s == ""
    || (max > 0 && s[0] == '.' && var t := TakeDigits(s[1..]); t.head != "" && DottedNumbers(t.rest, max - 1))
  }

  /** What may follow the three numbers of a published version. */
  predicate PublisherSuffix(s: string) {
    || s == ""
    || (s[0] == '-' && StartsWith(s[1..], Long(Alpha)) && DottedNumbers(s[1 + |Long(Alpha)|..], 2))
    || (s[0] == '-' && StartsWith(s[1..], Long(Beta)) && DottedNumbers(s[1 + |Long(Beta)|..], 1))
  }

  predicate PublisherAccepts(s: string) {
    var b := TakeBase(s);
    b.Some? && |b.value.base| == 3 && PublisherSuffix(b.value.rest)
  }

  /** The versions whose releases can be published: three numbers and no pre-release, an
      alpha with or without a hotfix, or a beta without one. */
  predicate Publishable(v: Version) {
    |v.base| == 3 && match v.pre
      case None => v.post.None?
      case Some(Alpha) => true
      case Some(Beta) => v.post.None?
      case Some(Rc) => false
  }

  function Suffix(v: Version): string {
    if v.pre == Some(Alpha) && v.post.Some? then Dashed(Alpha, v.number + ("." + v.post.value))
    else if v.pre.Some? && v.post.None? then Dashed(v.pre.value, v.number)
    else PrintPre(v.pre, v.number, PrintPost(v.post))
  }

  lemma SuffixStart(v: Version)
    requires Valid(v)
    ensures ReleaseOf(v) == PrintBase(v.base) + Suffix(v)
    ensures var s := Suffix(v); (s == "" || !IsDigit(s[0])) && !DotDigit(s)
  {
    PostThen(v.post);
    if v.pre.Some? {
      ShortThen(v.pre.value, v.number + PrintPost(v.post));
    }
  }

  lemma OneDotted(d: string, max: nat)
    requires IsNumber(d) && max >= 1
    ensures DottedNumbers("." + d, max)
  {
    assert ("." + d)[1..] == d && d + "" == d;
    DigitsThen(d, "");
  }

  lemma TwoDotted(d: string, e: string)
    requires IsNumber(d) && IsNumber(e)
    ensures DottedNumbers("." + (d + ("." + e)), 2)
  {
    assert ("." + (d + ("." + e)))[1..] == d + ("." + e);
    DigitsThen(d, "." + e);
    OneDotted(e, 1);
  }

  lemma DashedParts(p: Pre, rest: string)
    ensures var s := Dashed(p, rest);
            s != "" && s[0] == '-' && StartsWith(s[1..], Long(p)) && s[1 + |Long(p)|..] == "." + rest
  {
    var s := Dashed(p, rest);
    assert s[1..] == Long(p) + ("." + rest);
    assert s[1..][..|Long(p)|] == Long(p);
  }

  lemma SuffixAccepted(v: Version)
    requires Valid(v) && |v.base| == 3
    ensures PublisherSuffix(Suffix(v)) <==> Publishable(v)
  {
    if v.pre == Some(Alpha) && v.post.Some? {
      DashedParts(Alpha, v.number + ("." + v.post.value));
      TwoDotted(v.number, v.post.value);
    } else if v.pre.Some? && v.post.None? {
      DashedParts(v.pre.value, v.number);
      if v.pre.value != Rc {
        OneDotted(v.number, 2);
        OneDotted(v.number, 1);
      } else {
        assert Dashed(Rc, v.number)[1..][0] == 'r' && Long(Alpha)[0] == 'a' && Long(Beta)[0] == 'b';
      }
    } else if v.pre.Some? {
      assert Suffix(v)[0] == Short(v.pre.value)[0];
    } else if v.post.Some? {
      assert Suffix(v)[0] == '.';
    }
  }

  /** Which release versions the publisher's pattern accepts. */
  lemma PublisherAcceptsExactly(v: Version)
    requires Valid(v)
    ensures PublisherAccepts(ReleaseOf(v)) <==> Publishable(v)
  {
    SuffixStart(v);
    BaseThen(v.base, Suffix(v));
    if |v.base| == 3 {
      SuffixAccepted(v);
    }
  }

  /** The pattern of Python runtime versions. */
  predicate RuntimeAccepts(s: string) {
    Parse(s).Some? &&
    var v := Parse(s).value;
    |v.base| == 3 && (v.pre == Some(Alpha) || (v.pre.None? && v.post.None?))
  }

  /** The release tag of a Python runtime version; `None` where the source raises. */
  function ResolveRuntime(s: string): Option<string> {
    if !RuntimeAccepts(s) then None
    else match ReleaseVersion(s)
      case None => None
      case Some(r) => Some(TAG + r)
  }

  lemma ReleaseOfNormalized(s: string)
    requires Parse(s).Some?
    ensures Valid(Parse(s).value) && ReleaseVersion(s) == Some(ReleaseOf(Parse(s).value))
    ensures Normalize(TAG + ReleaseOf(Parse(s).value)) == Some(s)
  {
    NormalizedStays(s);
    PrintParse(s);
    NormalizeRelease(Parse(s).value);
  }

  /** Every accepted runtime version has a release version that can be published. */
  lemma RuntimeIsPublishable(s: string)
    requires RuntimeAccepts(s)
    ensures ReleaseVersion(s).Some? && PublisherAccepts(ReleaseVersion(s).value)
  {
    ReleaseOfNormalized(s);
    PublisherAcceptsExactly(Parse(s).value);
  }

  /** A runtime version resolves to a tag exactly when it is accepted, and normalising the
      tag gives the version back. */
  lemma RuntimeRoundTrip(s: string)
    ensures ResolveRuntime(s).Some? <==> RuntimeAccepts(s)
    ensures RuntimeAccepts(s) ==> Normalize(ResolveRuntime(s).value) == Some(s)
  {
    if RuntimeAccepts(s) {
      var r := ReleaseOf(Parse(s).value);
      ReleaseOfNormalized(s);
      Resolved(s, r);
    }
  }

  lemma Resolved(s: string, r: string)
    requires RuntimeAccepts(s) && ReleaseVersion(s) == Some(r)
    ensures ResolveRuntime(s) == Some(TAG + r)
  {
  }
}
