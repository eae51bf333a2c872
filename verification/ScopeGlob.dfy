/**
 Packet scope: the bucket a path falls into.  Patterns are shell-style and free of
 brackets; a `[` would open a character class, which this matcher does not have.
 */
module ScopeGlob {
  import opened Common

  // ----- matching -----

  /** `*` matches any text, `?` any one character, anything else itself. */
  predicate Match(pattern: string, text: string)
    decreases |pattern| + |text|
  {
    if pattern == "" then text == ""
    else if pattern[0] == '*' then Match(pattern[1..], text) || (text != "" && Match(pattern, text[1..]))
    else text != "" && (pattern[0] == '?' || pattern[0] == text[0]) && Match(pattern[1..], text[1..])
  }

  /** Replace `**` by `*`, left to right and without overlap. */
  function Flatten(pattern: string): string {
    if pattern == "" then ""
    else if |pattern| >= 2 && pattern[0] == '*' && pattern[1] == '*' then "*" + Flatten(pattern[2..])
    else [pattern[0]] + Flatten(pattern[1..])
  }

  /** What a star stands for: some beginning of the text, possibly empty. */
  lemma {:induction false} StarMatches(rest: string, text: string)
    ensures Match("*" + rest, text) <==> exists k :: 0 <= k <= |text| && Match(rest, text[k..])
    decreases |text|
  {
    assert ("*" + rest)[1..] == rest;
    if Match(rest, text) {
      assert text[0..] == text;
    }
    if text != "" {
      StarMatches(rest, text[1..]);
      forall k | 1 <= k <= |text| ensures text[k..] == text[1..][k - 1..] {
      }
      if k :| 0 <= k <= |text| && Match(rest, text[k..]) {
        if k == 0 {
          assert text[0..] == text;
        } else {
          assert Match(rest, text[1..][k - 1..]);
        }
      }
      if k :| 0 <= k <= |text[1..]| && Match(rest, text[1..][k..]) {
        assert Match(rest, text[k + 1..]);
      }
    }
  }

  /** A second star adds nothing. */
  lemma TwoStars(rest: string, text: string)
    ensures Match("*" + ("*" + rest), text) <==> Match("*" + rest, text)
  {
    StarMatches("*" + rest, text);
    StarMatches(rest, text);
    if Match("*" + rest, text) {
      assert text[0..] == text;
    }
    if k :| 0 <= k <= |text| && Match("*" + rest, text[k..]) {
      StarMatches(rest, text[k..]);
      var m :| 0 <= m <= |text[k..]| && Match(rest, text[k..][m..]);
      assert text[k..][m..] == text[k + m..];
    }
  }

  /** Patterns with the same meaning keep it behind a star. */
  lemma StarKeeps(a: string, b: string, text: string)
    requires forall t :: Match(a, t) == Match(b, t)
    ensures Match("*" + a, text) == Match("*" + b, text)
  {
    StarMatches(a, text);
    StarMatches(b, text);
  }

  /** The rewrite keeps the matched set. */
  lemma {:induction false} FlattenKeepsMeaning(pattern: string, text: string)
    ensures Match(Flatten(pattern), text) == Match(pattern, text)
    decreases |pattern|
  {
    if pattern != "" {
      if |pattern| >= 2 && pattern[0] == '*' && pattern[1] == '*' {
        var rest := pattern[2..];
        forall t ensures Match(Flatten(rest), t) == Match(rest, t) {
          FlattenKeepsMeaning(rest, t);
        }
        StarKeeps(Flatten(rest), rest, text);
        TwoStars(rest, text);
        assert pattern == "*" + ("*" + rest);
      } else {
        var rest := pattern[1..];
        forall t ensures Match(Flatten(rest), t) == Match(rest, t) {
          FlattenKeepsMeaning(rest, t);
        }
        assert Flatten(pattern)[1..] == Flatten(rest);
        if pattern[0] == '*' {
          StarKeeps(Flatten(rest), rest, text);
          assert pattern == "*" + rest && Flatten(pattern) == "*" + Flatten(rest);
        }
      }
    }
  }

  // ----- normalising a path -----

  /** White space as `str.strip` sees it. */
  predicate IsSpace(c: char) {
    var n := c as int;
    || 9 <= n <= 13 || 28 <= n <= 32 || n == 0x85 || n == 0xA0 || n == 0x1680 || 0x2000 <= n <= 0x200A
    || n == 0x2028 || n == 0x2029 || n == 0x202F || n == 0x205F || n == 0x3000
  }

  function StripLeft(s: string): string {
    if s != "" && IsSpace(s[0]) then StripLeft(s[1..]) else s
  }

  function StripRight(s: string): string {
    if s != "" && IsSpace(s[|s| - 1]) then StripRight(s[..|s| - 1]) else s
  }

  function Strip(s: string): string {
    StripRight(StripLeft(s))
  }

  predicate StartsDotSlash(s: string) {
    |s| >= 2 && s[0] == '.' && s[1] == '/'
  }

  function DropDots(s: string): string {
    if StartsDotSlash(s) then DropDots(s[2..]) else s
  }

  function Normalized(path: string): string {
    DropDots(Strip(path))
  }

  method Normalize(path: string) returns (p: string)
    ensures p == Normalized(path) && !StartsDotSlash(p)
  {
    p := Strip(path);
    while StartsDotSlash(p)
      invariant DropDots(p) == Normalized(path)
      decreases |p|
    {
      p := p[2..];
    }
  }

  /** After its leading `./` parts the text goes on with white space. */
  predicate DotsThenSpace(s: string) {
    StartsDotSlash(s) && ((|s| > 2 && IsSpace(s[2])) || DotsThenSpace(s[2..]))
  }

  predicate Trimmed(s: string) {
    s == "" || (!IsSpace(s[0]) && !IsSpace(s[|s| - 1]))
  }

  lemma {:induction false} StripRightKeepsHead(s: string)
    requires s == "" || !IsSpace(s[0])
    ensures Trimmed(StripRight(s))
  {
    if s != "" && IsSpace(s[|s| - 1]) {
      StripRightKeepsHead(s[..|s| - 1]);
    }
  }

  lemma {:induction false} StripLeftHead(s: string)
    ensures StripLeft(s) == "" || !IsSpace(StripLeft(s)[0])
  {
    if s != "" && IsSpace(s[0]) {
      StripLeftHead(s[1..]);
    }
  }

  lemma StripTrims(s: string)
    ensures Trimmed(Strip(s))
    ensures Trimmed(s) ==> Strip(s) == s
  {
    StripLeftHead(s);
    StripRightKeepsHead(StripLeft(s));
  }

  lemma {:induction false} DropDotsEnds(s: string)
    requires Trimmed(s)
    ensures !StartsDotSlash(DropDots(s)) && |DropDots(s)| <= |s|
    ensures DropDots(s) != "" ==> !IsSpace(DropDots(s)[|DropDots(s)| - 1])
    ensures DotsThenSpace(s) <==> DropDots(s) != "" && IsSpace(DropDots(s)[0])
  {
    if StartsDotSlash(s) {
      if |s| > 2 && !IsSpace(s[2]) {
        DropDotsEnds(s[2..]);
      }
    }
  }

  lemma {:induction false} StripShrinks(s: string)
    ensures |StripLeft(s)| <= |s| && |StripRight(s)| <= |s|
    decreases |s|
  {
    if s != "" {
      StripShrinks(s[1..]);
      StripShrinks(s[..|s| - 1]);
    }
  }

  /** Normalising again changes nothing exactly when no white space follows the leading `./` parts. */
  lemma NormalizeStableIff(path: string)
    ensures Normalized(Normalized(path)) == Normalized(path) <==> !DotsThenSpace(Strip(path))
  {
    var once := Normalized(path);
    StripTrims(path);
    DropDotsEnds(Strip(path));
    StripTrims(once);
    if DotsThenSpace(Strip(path)) {
      StripShrinks(once[1..]);
      StripShrinks(StripLeft(once));
      DropDotsEnds(Strip(once));
    }
  }

  // ----- classifying -----

  datatype Scope = Scope(inScope: seq<string>, companions: seq<string>, outOfScope: seq<string>)

  datatype Bucket = InScope | Companion | OutOfScope | Unscoped

  datatype Classified = Classified(path: string, bucket: Bucket, matched: Option<string>)

  /** The first pattern that matches, flattened or as written. */
  function GlobMatch(path: string, patterns: seq<string>): Option<string> {
    if patterns == [] then None
    else if Match(Flatten(patterns[0]), Normalized(path)) || Match(patterns[0], Normalized(path)) then Some(patterns[0])
    else GlobMatch(path, patterns[1..])
  }

  function Classify(scope: Scope, path: string): Classified {
    var norm := Normalized(path);
    var forbidden := GlobMatch(norm, scope.outOfScope);
    if forbidden.Some? then Classified(norm, OutOfScope, forbidden)
    else
      var allowed := GlobMatch(norm, scope.inScope);
      if allowed.Some? then Classified(norm, InScope, allowed)
      else
        var companion := GlobMatch(norm, scope.companions);
        if companion.Some? then Classified(norm, Companion, companion) else Classified(norm, Unscoped, None)
  }

  /** The position of the first raw pattern that matches a text, or the number of patterns. */
  function FirstRaw(text: string, patterns: seq<string>): (i: nat)
    ensures i <= |patterns|
    ensures forall k :: 0 <= k < i ==> !Match(patterns[k], text)
    ensures i < |patterns| ==> Match(patterns[i], text)
  {
    if patterns == [] then 0
    else if Match(patterns[0], text) then 0
    else 1 + FirstRaw(text, patterns[1..])
  }

  /** Flattening changes no first match: the search is the search over the patterns as written. */
  lemma {:induction false} GlobMatchIsRaw(path: string, patterns: seq<string>)
    ensures var i := FirstRaw(Normalized(path), patterns);
            GlobMatch(path, patterns) == if i < |patterns| then Some(patterns[i]) else None
  {
    if patterns != [] {
      FlattenKeepsMeaning(patterns[0], Normalized(path));
      GlobMatchIsRaw(path, patterns[1..]);
    }
  }

  predicate MatchesAny(text: string, patterns: seq<string>) {
    exists i :: 0 <= i < |patterns| && Match(patterns[i], text)
  }

  /** The bucket by raw patterns, denial first; the text matched is the path normalised twice. */
  lemma BucketIsRaw(scope: Scope, path: string)
    ensures var text := Normalized(Normalized(path));
            Classify(scope, path).bucket ==
            if MatchesAny(text, scope.outOfScope) then OutOfScope
            else if MatchesAny(text, scope.inScope) then InScope
            else if MatchesAny(text, scope.companions) then Companion
            else Unscoped
  {
    var norm := Normalized(path);
    GlobMatchIsRaw(norm, scope.outOfScope);
    GlobMatchIsRaw(norm, scope.inScope);
    GlobMatchIsRaw(norm, scope.companions);
  }

  /** A denial added anywhere only moves paths it matches, and only into out-of-scope. */
  lemma DenyOnlyMovesOut(scope: Scope, path: string, before: seq<string>, deny: string, after: seq<string>)
    requires scope.outOfScope == before + after
    ensures var wider := scope.(outOfScope := before + [deny] + after);
            Classify(wider, path).bucket ==
            if Match(deny, Normalized(Normalized(path))) then OutOfScope else Classify(scope, path).bucket
  {
    var text := Normalized(Normalized(path));
    var wider := scope.(outOfScope := before + [deny] + after);
    BucketIsRaw(scope, path);
    BucketIsRaw(wider, path);
    DenySplit(text, before, deny, after);
  }

  lemma DenySplit(text: string, before: seq<string>, deny: string, after: seq<string>)
    ensures MatchesAny(text, before + [deny] + after) <==> Match(deny, text) || MatchesAny(text, before + after)
  {
    var with, without := before + [deny] + after, before + after;
    forall i | 0 <= i < |with| && Match(with[i], text) ensures Match(deny, text) || MatchesAny(text, without) {
      if i < |before| {
        assert without[i] == with[i];
      } else if i > |before| {
        assert without[i - 1] == with[i];
      }
    }
    forall i | 0 <= i < |without| && Match(without[i], text) ensures MatchesAny(text, with) {
      if i < |before| {
        assert with[i] == without[i];
      } else {
        assert with[i + 1] == without[i];
      }
    }
    assert with[|before|] == deny;
  }
}
