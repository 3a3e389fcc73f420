/** `sanitizeAccountName` of the report normaliser: strip HTML-like tags,
    collapse runs of white space to one space, trim. */
module AccountName {
  import opened Strings

  /** No `<` in `s` is followed, anywhere later, by a `>`: `s` holds nothing
      the tag pattern `/<[^>]*>/` could match. */
  ghost predicate NoTag(s: string) {
    forall i, j :: 0 <= i < j < |s| && s[i] == '<' ==> s[j] != '>'
  }

  /** Every white-space character is a plain space and no two of them are
      adjacent. */
  ghost predicate SingleSpaced(s: string) {
    && (forall k :: 0 <= k < |s| && IsSpace(s[k]) ==> s[k] == ' ')
    && (forall k :: 0 <= k < |s| - 1 ==> !DoubleSpaceAt(s, k))
  }

  /** Positions `k` and `k + 1` of `s` both hold white space. */
  ghost predicate DoubleSpaceAt(s: string, k: nat)
    requires k + 1 < |s|
  {
    IsSpace(s[k]) && IsSpace(s[k + 1])
  }

  /** Position of the first `c` in `s`. */
  function FirstIndex(s: string, c: char): (r: nat)
    requires c in s
    ensures r < |s| && s[r] == c && c !in s[..r]
  {
    if s[0] == c then 0 else 1 + FirstIndex(s[1..], c)
  }

  /** `s.replace(/<[^>]*>/g, "")`. Scanning from the left, a `<` starts a
      match exactly when some `>` follows it; the match runs to the first
      such `>` and the scan resumes after it. A `<` with no `>` after it is
      kept. */
  function StripTags(s: string): (r: string)
    ensures |r| <= |s|
    ensures forall k :: 0 <= k < |r| ==> r[k] in s
    ensures NoTag(r)
    decreases |s|
  {
    if s == [] then []
    else if s[0] == '<' && '>' in s[1..] then
      StripTags(s[1..][FirstIndex(s[1..], '>') + 1..])
    else
      var rest := StripTags(s[1..]);
      assert forall k :: 0 <= k < |rest| ==> rest[k] in s[1..];
      [s[0]] + rest
  }

  /** `s.replace(/\s+/g, " ")`: every maximal run of white space becomes a
      single space. */
  function CollapseSpaces(s: string): (r: string)
    ensures |r| <= |s|
    ensures |s| > 0 ==> |r| > 0 && (IsSpace(r[0]) <==> IsSpace(s[0]))
    decreases |s|
  {
    if s == [] then []
    else if IsSpace(s[0]) then " " + CollapseSpaces(TrimStart(s))
    else [s[0]] + CollapseSpaces(s[1..])
  }

  /** After collapsing, white space is single plain spaces. */
  lemma {:induction false} CollapseSingleSpaced(s: string)
    ensures SingleSpaced(CollapseSpaces(s))
    decreases |s|
  {
    if s != [] {
      var t := if IsSpace(s[0]) then TrimStart(s) else s[1..];
      CollapseSingleSpaced(t);
      var rest := CollapseSpaces(t);
      var r := CollapseSpaces(s);
      assert r == [if IsSpace(s[0]) then ' ' else s[0]] + rest;
      assert IsSpace(s[0]) ==> rest == [] || !IsSpace(rest[0]);
      forall k | 0 <= k < |r| - 1 ensures !DoubleSpaceAt(r, k) {
        if k > 0 {
          assert r[k] == rest[k - 1] && r[k + 1] == rest[k];
          assert !DoubleSpaceAt(rest, k - 1);
        }
      }
      forall k | 0 <= k < |r| && IsSpace(r[k]) ensures r[k] == ' ' {
        if k > 0 { assert r[k] == rest[k - 1]; }
      }
    }
  }

  /** A `<` may start text without a tag-like piece only when no `>`
      follows. */
  lemma NoTagCons(c: char, rest: string)
    requires NoTag(rest) && (c == '<' ==> '>' !in rest)
    ensures NoTag([c] + rest)
  {
    var r := [c] + rest;
    forall i, j | 0 <= i < j < |r| && r[i] == '<' ensures r[j] != '>' {
      assert r[j] == rest[j - 1];
      if i > 0 { assert r[i] == rest[i - 1]; }
    }
  }

  /** A piece of text without a tag-like piece has none either. */
  lemma NoTagSuffix(s: string, n: nat)
    requires NoTag(s) && n <= |s|
    ensures NoTag(s[n..])
  {
    var t := s[n..];
    forall i, j | 0 <= i < j < |t| && t[i] == '<' ensures t[j] != '>' {
      assert t[i] == s[n + i] && t[j] == s[n + j];
    }
  }

  /** Collapsing introduces no character other than the space. */
  lemma {:induction false} CollapseKeepsChars(s: string)
    ensures forall c :: c in CollapseSpaces(s) && c != ' ' ==> c in s
    decreases |s|
  {
    if s != [] {
      var t := if IsSpace(s[0]) then TrimStart(s) else s[1..];
      assert t == s[|s| - |t|..];
      CollapseKeepsChars(t);
      var c0 := if IsSpace(s[0]) then ' ' else s[0];
      assert CollapseSpaces(s) == [c0] + CollapseSpaces(t);
      forall c | c in CollapseSpaces(s) && c != ' ' ensures c in s {
        if c != c0 {
          assert c in CollapseSpaces(t);
          assert c in t;
        }
      }
    }
  }

  /** Collapsing introduces no tag-like piece. */
  lemma {:induction false} CollapseKeepsNoTag(s: string)
    requires NoTag(s)
    ensures NoTag(CollapseSpaces(s))
    decreases |s|
  {
    if s != [] {
      var t := if IsSpace(s[0]) then TrimStart(s) else s[1..];
      NoTagSuffix(s, |s| - |t|);
      assert t == s[|s| - |t|..];
      CollapseKeepsNoTag(t);
      var c0 := if IsSpace(s[0]) then ' ' else s[0];
      assert CollapseSpaces(s) == [c0] + CollapseSpaces(t);
      if c0 == '<' {
        assert '>' !in t by {
          forall j | 0 <= j < |t| ensures t[j] != '>' { assert t[j] == s[j + 1]; }
        }
        CollapseKeepsChars(t);
      }
      NoTagCons(c0, CollapseSpaces(t));
    }
  }

  /** `sanitizeAccountName(name)` */
  function Sanitize(name: string): (r: string)
  {
    if name == "" then "" else Trim(CollapseSpaces(StripTags(name)))
  }

  /** What `sanitizeAccountName` promises: empty text for empty input; no
      white space at either end; every white-space character a single plain
      space; nothing left that looks like a tag; never longer than its
      input; and each visible character taken from the input. */
  lemma SanitizeShape(name: string)
    ensures var r := Sanitize(name);
      && (name == "" ==> r == "")
      && (r == [] || (!IsSpace(r[0]) && !IsSpace(r[|r| - 1])))
      && SingleSpaced(r)
      && NoTag(r)
      && |r| <= |name|
      && (forall c :: c in r && !IsSpace(c) ==> c in name)
  {
    if name != "" {
      var a := StripTags(name);
      var b := CollapseSpaces(a);
      CollapseSingleSpaced(a);
      CollapseKeepsChars(a);
      CollapseKeepsNoTag(a);
      TrimKeepsShape(b);
      TrimShape(b);
      forall c | c in Trim(b) && !IsSpace(c) ensures c in name {
        assert c in b;
        assert c in a;
      }
    }
  }

  /** Trimming single-spaced, tag-free text keeps it so. */
  lemma TrimKeepsShape(b: string)
    requires SingleSpaced(b) && NoTag(b)
    ensures SingleSpaced(Trim(b)) && NoTag(Trim(b))
    ensures forall c :: c in Trim(b) ==> c in b
  {
    TrimShape(b);
    var i: nat :| OccursAt(b, Trim(b), i);
    PieceShape(b, Trim(b), i);
  }

  /** A piece of single-spaced, tag-free text is single-spaced and
      tag-free. */
  lemma PieceShape(b: string, r: string, i: nat)
    requires SingleSpaced(b) && NoTag(b) && OccursAt(b, r, i)
    ensures SingleSpaced(r) && NoTag(r)
    ensures forall c :: c in r ==> c in b
  {
    assert r == b[i..i + |r|];
    forall k | 0 <= k < |r| - 1 ensures !DoubleSpaceAt(r, k) {
      assert r[k] == b[i + k] && r[k + 1] == b[i + k + 1];
      assert !DoubleSpaceAt(b, i + k);
    }
    forall k | 0 <= k < |r| && IsSpace(r[k]) ensures r[k] == ' ' {
      assert r[k] == b[i + k];
    }
    forall x, y | 0 <= x < y < |r| && r[x] == '<' ensures r[y] != '>' {
      assert r[x] == b[i + x] && r[y] == b[i + y];
    }
    forall c | c in r ensures c in b {
      var k :| 0 <= k < |r| && r[k] == c;
      assert b[i + k] == c;
    }
  }

  /** Text with no tag-like piece passes through tag stripping unchanged. */
  lemma {:induction false} StripTagsUntouched(s: string)
    requires NoTag(s)
    ensures StripTags(s) == s
    decreases |s|
  {
    if s != [] {
      if s[0] == '<' {
        assert '>' !in s[1..] by {
          forall j | 0 <= j < |s| - 1 ensures s[1..][j] != '>' {
            assert s[j + 1] != '>';
          }
        }
      }
      assert NoTag(s[1..]) by {
        forall i, j | 0 <= i < j < |s| - 1 && s[1..][i] == '<' ensures s[1..][j] != '>' {
          assert s[i + 1] == '<';
        }
      }
      StripTagsUntouched(s[1..]);
    }
  }

  /** Single-spaced text passes through space collapsing unchanged. */
  lemma {:induction false} CollapseUntouched(s: string)
    requires SingleSpaced(s)
    ensures CollapseSpaces(s) == s
    decreases |s|
  {
    if s != [] {
      assert SingleSpaced(s[1..]) by {
        forall k | 0 <= k < |s| - 2 ensures !DoubleSpaceAt(s[1..], k) {
          assert !DoubleSpaceAt(s, k + 1);
        }
      }
      CollapseUntouched(s[1..]);
      if IsSpace(s[0]) {
        assert TrimStart(s) == s[1..] by {
          assert |s| > 1 ==> !DoubleSpaceAt(s, 0);
          assert s[1..] == [] || !IsSpace(s[1]);
          assert TrimStart(s[1..]) == s[1..];
        }
        assert CollapseSpaces(s) == " " + CollapseSpaces(s[1..]);
        assert s[0] == ' ';
      } else {
        assert CollapseSpaces(s) == [s[0]] + CollapseSpaces(s[1..]);
      }
      assert s == [s[0]] + s[1..];
    }
  }

  /** Sanitising is idempotent. */
  lemma SanitizeIdempotent(name: string)
    ensures Sanitize(Sanitize(name)) == Sanitize(name)
  {
    var r := Sanitize(name);
    SanitizeShape(name);
    if r != "" {
      StripTagsUntouched(r);
      CollapseUntouched(r);
      TrimUntouched(r);
    }
  }
}
