/** The grammars of identifiers, names and digests, and what counts as a URL, told by
    positions and code points and proved to agree with the recursive tests the contracts
    make. */
module Grammars {
  import opened CanonicalJson
  import opened StateMachine
  import opened Contracts

  // ---------- Identifiers ----------

  /** A lower-case letter, a digit or a hyphen, by code point. */
  predicate TokenCode(c: char) {
    var n := c as int;
    97 <= n <= 122 || 48 <= n <= 57 || n == 45
  }

  /** The prefix, then a letter or digit, then letters, digits and hyphens: at most 128
      characters in all. */
  predicate TokenAfter(prefix: string, s: string) {
    && |prefix| < |s| <= 128 && s[..|prefix|] == prefix && s[|prefix|] as int != 45
    && forall i | |prefix| <= i < |s| :: TokenCode(s[i])
  }

  /** A letter, then at most 127 letters, digits and hyphens. */
  predicate EvidenceName(s: string) {
    1 <= |s| <= 128 && 97 <= s[0] as int <= 122 && forall i | 0 <= i < |s| :: TokenCode(s[i])
  }

  lemma EvidenceNameExact(s: string)
    ensures ValidEvidenceId(s) <==> EvidenceName(s)
  {
    if AllTokenChars(s) {
      forall i | 0 <= i < |s| ensures TokenCode(s[i]) { assert s[i] in s; }
    }
    if forall i | 0 <= i < |s| :: TokenCode(s[i]) {
      forall c | c in s ensures IsTokenChar(c) {
        var k :| 0 <= k < |s| && s[k] == c;
        assert TokenCode(s[k]);
      }
    }
  }

  lemma TokenExact(prefix: string, s: string)
    ensures PrefixedToken(prefix, s) <==> TokenAfter(prefix, s)
  {
    if |prefix| < |s| {
      var tail := s[|prefix|..];
      if AllTokenChars(tail) {
        forall i | |prefix| <= i < |s| ensures TokenCode(s[i]) {
          assert tail[i - |prefix|] in tail;
        }
      }
      if forall i | |prefix| <= i < |s| :: TokenCode(s[i]) {
        forall c | c in tail ensures IsTokenChar(c) {
          var k :| 0 <= k < |tail| && tail[k] == c;
          assert s[|prefix| + k] == c;
        }
      }
    }
  }

  /** A letter, then letters, digits and underscores: at most 64 characters. */
  predicate NameText(s: string) {
    && 1 <= |s| <= 64 && 97 <= s[0] as int <= 122
    && forall i | 0 <= i < |s| ::
         var n := s[i] as int; 97 <= n <= 122 || 48 <= n <= 57 || n == 95
  }

  lemma NameExact(s: string)
    ensures ValidParameterName(s) <==> NameText(s)
  {
    if ValidParameterName(s) {
      forall i | 0 <= i < |s|
        ensures 97 <= s[i] as int <= 122 || 48 <= s[i] as int <= 57 || s[i] as int == 95
      {
        assert s[i] in s;
      }
    }
    if NameText(s) {
      forall c | c in s ensures IsLower(c) || '0' <= c <= '9' || c == '_' {
        var k :| 0 <= k < |s| && s[k] == c;
        assert 97 <= s[k] as int <= 122 || 48 <= s[k] as int <= 57 || s[k] as int == 95;
      }
    }
  }

  /** `sha256:` and 64 lower-case hexadecimal digits. */
  predicate DigestText(s: string) {
    && |s| == 71 && s[..7] == "sha256:"
    && forall i | 7 <= i < 71 :: 48 <= s[i] as int <= 57 || 97 <= s[i] as int <= 102
  }

  lemma DigestExact(s: string)
    ensures ValidDigest(s) <==> DigestText(s)
  {
  }

  // ---------- URLs ----------

  /** The code points Python's `lstrip` removes. */
  predicate WhiteCode(n: int) {
    || 9 <= n <= 13 || 28 <= n <= 32 || n == 0x85 || n == 0xA0 || n == 0x1680 || 0x2000 <= n <= 0x200A
    || n == 0x2028 || n == 0x2029 || n == 0x202F || n == 0x205F || n == 0x3000
  }

  predicate LetterCode(n: int) {
    65 <= n <= 90 || 97 <= n <= 122
  }

  /** Letters, digits, plus, full stop and hyphen. */
  predicate SchemeCode(n: int) {
    LetterCode(n) || 48 <= n <= 57 || n == 43 || n == 46 || n == 45
  }

  /** White space up to `i`, a letter there, scheme characters up to a colon at `j`. */
  predicate SchemeAt(s: string, i: int, j: int) {
    && 0 <= i < j < |s|
    && (forall k | 0 <= k < i :: WhiteCode(s[k] as int))
    && LetterCode(s[i] as int)
    && (forall k | i < k < j :: SchemeCode(s[k] as int))
    && s[j] as int == 58
  }

  ghost predicate IsUrl(s: string) {
    !DigestText(s) && exists i, j :: SchemeAt(s, i, j)
  }

  predicate ColonAt(s: string, j: int) {
    0 <= j < |s| && s[j] as int == 58 && forall k | 0 <= k < j :: SchemeCode(s[k] as int)
  }

  lemma {:induction false} ColonExact(s: string)
    ensures ColonEndsScheme(s) <==> exists j :: ColonAt(s, j)
  {
    if |s| > 0 {
      ColonExact(s[1..]);
      if s[0] as int == 58 {
        assert ColonAt(s, 0);
      } else {
        if j :| ColonAt(s[1..], j) && IsSchemeChar(s[0]) {
          forall k | 0 <= k < j + 1 ensures SchemeCode(s[k] as int) {
            if k > 0 { assert s[k] == s[1..][k - 1]; }
          }
          assert ColonAt(s, j + 1);
        }
        if j :| ColonAt(s, j) {
          assert SchemeCode(s[0] as int);
          assert forall k | 0 <= k < j - 1 :: s[1..][k] == s[k + 1];
          assert ColonAt(s[1..], j - 1);
        }
      }
    }
  }

  lemma SchemeHere(s: string)
    ensures HasScheme(s) <==> exists j :: SchemeAt(s, 0, j)
  {
    if |s| > 0 {
      ColonExact(s[1..]);
      if j :| ColonAt(s[1..], j) && IsLetter(s[0]) {
        forall k | 0 < k < j + 1 ensures SchemeCode(s[k] as int) {
          assert s[k] == s[1..][k - 1];
        }
        assert SchemeAt(s, 0, j + 1);
      }
      if j :| SchemeAt(s, 0, j) {
        assert forall k | 0 <= k < j - 1 :: s[1..][k] == s[k + 1];
        assert ColonAt(s[1..], j - 1);
      }
    }
  }

  lemma {:induction false} SchemeBehindSpace(s: string)
    ensures HasScheme(StripLeft(s)) <==> exists i, j :: SchemeAt(s, i, j)
  {
    if |s| > 0 && IsStripped(s[0]) {
      SchemeBehindSpace(s[1..]);
      if i, j :| SchemeAt(s[1..], i, j) {
        forall k | 0 <= k < i + 1 ensures WhiteCode(s[k] as int) {
          if k > 0 { assert s[k] == s[1..][k - 1]; }
        }
        forall k | i + 1 < k < j + 1 ensures SchemeCode(s[k] as int) {
          assert s[k] == s[1..][k - 1];
        }
        assert SchemeAt(s, i + 1, j + 1);
      }
      if i, j :| SchemeAt(s, i, j) {
        assert i > 0;
        assert forall k | 0 <= k < |s| - 1 :: s[1..][k] == s[k + 1];
        assert SchemeAt(s[1..], i - 1, j - 1);
      }
    } else {
      SchemeHere(s);
      if i, j :| SchemeAt(s, i, j) {
        assert i > 0 ==> WhiteCode(s[0] as int);
        assert i == 0;
      }
    }
  }

  /** The test the contracts make is the one on positions. */
  lemma UrlExact(s: string)
    ensures UrlLike(s) <==> IsUrl(s)
  {
    hide ValidDigest, DigestText, HasScheme, StripLeft, SchemeAt;
    DigestExact(s);
    SchemeBehindSpace(s);
  }

  // ---------- Values and maps ----------

  /** The text stands somewhere in the value: as the value, a list item or the value of a
      member, at any depth. */
  predicate Contains(v: Json, text: string)
    decreases v
  {
    match v
    case Str(s) => s == text
    case Arr(items) => exists i | 0 <= i < |items| :: Contains(items[i], text)
    case Obj(fields) => exists k | k in fields :: Contains(fields[k], text)
    case _ => false
  }

  lemma {:induction false} UrlFreeExact(v: Json)
    ensures UrlFree(v) <==> forall text | Contains(v, text) :: !IsUrl(text)
    decreases v
  {
    hide UrlLike, IsUrl;
    match v {
      case Str(s) =>
        UrlExact(s);
        assert Contains(v, s);
      case Arr(items) =>
        forall i | 0 <= i < |items|
          ensures UrlFree(items[i]) <==> forall text | Contains(items[i], text) :: !IsUrl(text)
        {
          UrlFreeExact(items[i]);
        }
        if forall text | Contains(v, text) :: !IsUrl(text) {
          forall i, text | 0 <= i < |items| && Contains(items[i], text) ensures !IsUrl(text) {
            assert Contains(v, text);
          }
        }
      case Obj(fields) =>
        forall k | k in fields
          ensures UrlFree(fields[k]) <==> forall text | Contains(fields[k], text) :: !IsUrl(text)
        {
          UrlFreeExact(fields[k]);
        }
        if forall text | Contains(v, text) :: !IsUrl(text) {
          forall k, text | k in fields && Contains(fields[k], text) ensures !IsUrl(text) {
            assert Contains(v, text);
          }
        }
      case _ =>
    }
  }

  /** Every key is a name and no text in any value is a URL. */
  ghost predicate CleanMap(m: map<string, Json>) {
    forall k | k in m :: NameText(k) && forall text | Contains(m[k], text) :: !IsUrl(text)
  }

  lemma MapExact(m: map<string, Json>)
    ensures ValidEvidenceMap(m) <==> CleanMap(m)
  {
    hide NameText, ValidParameterName, UrlFree, Contains, IsUrl;
    forall k | k in m
      ensures ValidParameterName(k) <==> NameText(k)
      ensures UrlFree(m[k]) <==> forall text | Contains(m[k], text) :: !IsUrl(text)
    {
      NameExact(k);
      UrlFreeExact(m[k]);
    }
  }
}
