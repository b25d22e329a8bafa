/**
 * The regular expressions the sign-in page tests values against.
 * `RegExp.prototype.test` succeeds when the pattern matches ANY substring,
 * so each pattern's language is stated as "some substring has this shape"
 * (a ghost predicate), and each test is a left-to-right scan proved equal to it.
 */
module HomePatterns {
  import opened JsText

  /** The flags of `passwordRequirements`. */
  datatype PasswordRequirements = PasswordRequirements(
    minLength: bool, uppercase: bool, number: bool, specialCharacter: bool)
  {
    predicate AllMet()
    {
      minLength && uppercase && number && specialCharacter
    }
  }

  /** The state the form starts with: no requirement met. */
  const NoneMet: PasswordRequirements := PasswordRequirements(false, false, false, false)

  // ---------------------------------------------------------------------------
  // Character classes

  /** `[A-Z]` */
  predicate IsUpper(c: char) { 'A' <= c <= 'Z' }

  /** `[0-9]` */
  predicate IsDigit(c: char) { '0' <= c <= '9' }

  /** `[!@#$%^&*(),.?":{}|<>/]` */
  predicate IsSpecial(c: char)
  {
    c in "!@#$%^&*(),.?\":{}|<>/"
  }

  /** The test of a one-character class: does some character of `s` belong to it? */
  function ContainsClass(s: string, cls: char -> bool): (r: bool)
    ensures r <==> exists i :: 0 <= i < |s| && cls(s[i])
  {
    if s == [] then false
    else if cls(s[0]) then true
    else
      var r := ContainsClass(s[1..], cls);
      assert forall i :: 1 <= i < |s| ==> s[i] == s[1..][i - 1];
      r
  }

  // ---------------------------------------------------------------------------
  // `/.{8,}/`: eight characters in a row, none a line terminator.

  /** `s[i..i+n]` holds no line terminator. */
  ghost predicate RunAt(s: string, i: nat, n: nat)
    requires i + n <= |s|
  {
    forall j :: i <= j < i + n ==> !IsLineTerminator(s[j])
  }

  /** The language of `/.{8,}/` under `test`. */
  ghost predicate MatchesMinLength(s: string)
  {
    exists i: nat :: i + 8 <= |s| && RunAt(s, i, 8)
  }

  /** After reading `s[..k]`, `run` is the length of the terminator-free suffix and no 8-run has ended yet. */
  ghost predicate RunScanState(s: string, k: nat, run: nat)
  {
    k <= |s| && run <= k && RunAt(s, k - run, run) &&
    (run < k ==> IsLineTerminator(s[k - run - 1])) &&
    (run < 8 ==> forall i: nat :: i + 8 <= k ==> !RunAt(s, i, 8))
  }

  function ScanRun(s: string, k: nat, run: nat): bool
    requires k <= |s|
    decreases |s| - k
  {
    if run >= 8 then true
    else if k == |s| then false
    else ScanRun(s, k + 1, if IsLineTerminator(s[k]) then 0 else run + 1)
  }

  lemma {:induction false} ScanRunCorrect(s: string, k: nat, run: nat)
    requires RunScanState(s, k, run)
    ensures ScanRun(s, k, run) <==> MatchesMinLength(s)
    decreases |s| - k
  {
    if run >= 8 {
      assert RunAt(s, k - run, 8);
    } else if k == |s| {
    } else {
      var run' := if IsLineTerminator(s[k]) then 0 else run + 1;
      if run' < 8 {
        forall i: nat | i + 8 <= k + 1 ensures !RunAt(s, i, 8) {
          if i + 8 == k + 1 {
            if IsLineTerminator(s[k]) {
              assert !RunAt(s, i, 8) by { assert i <= k < i + 8; }
            } else {
              assert i <= k - run - 1 < i + 8;
            }
          }
        }
      }
      ScanRunCorrect(s, k + 1, run');
    }
  }

  /** `passwordValidation.minLength.test(s)`. */
  function MinLengthTest(s: string): (r: bool)
    ensures r <==> MatchesMinLength(s)
  {
    ScanRunCorrect(s, 0, 0);
    ScanRun(s, 0, 0)
  }

  /** The requirement flags `validateField` computes for a new password. */
  function CheckPassword(s: string): (r: PasswordRequirements)
    ensures r.minLength <==> MatchesMinLength(s)
    ensures r.uppercase <==> exists i :: 0 <= i < |s| && IsUpper(s[i])
    ensures r.number <==> exists i :: 0 <= i < |s| && IsDigit(s[i])
    ensures r.specialCharacter <==> exists i :: 0 <= i < |s| && IsSpecial(s[i])
  {
    PasswordRequirements(MinLengthTest(s), ContainsClass(s, IsUpper),
                         ContainsClass(s, IsDigit), ContainsClass(s, IsSpecial))
  }

  /** On a password without line terminators, `minLength` is exactly "at least 8 characters". */
  lemma MinLengthOnSingleLine(s: string)
    requires forall j :: 0 <= j < |s| ==> !IsLineTerminator(s[j])
    ensures MatchesMinLength(s) <==> |s| >= 8
  {
    if |s| >= 8 {
      assert RunAt(s, 0, 8);
    }
  }

  // ---------------------------------------------------------------------------
  // `/\S+@\S+\.\S+/`

  /** `s[i..j]` holds no white space: it is in `\S*`. */
  ghost predicate Solid(s: string, i: nat, j: nat)
    requires i <= j <= |s|
  {
    forall m :: i <= m < j ==> !IsSpace(s[m])
  }

  /** `s[i..e]` is `x@y.z` with `x = s[i..a]`, `y = s[a+1..b]`, `z = s[b+1..e]` all in `\S+`. */
  ghost predicate EmailAt(s: string, i: nat, a: nat, b: nat, e: nat)
  {
    i < a && a + 1 < b && b + 1 < e <= |s| &&
    Solid(s, i, a) && s[a] == '@' && Solid(s, a + 1, b) && s[b] == '.' && Solid(s, b + 1, e)
  }

  /** The language of `/\S+@\S+\.\S+/` under `test`. */
  ghost predicate MatchesEmail(s: string)
  {
    exists i: nat, a: nat, b: nat, e: nat :: EmailAt(s, i, a, b, e)
  }

  /** A match that has ended within `s[..k]`. */
  ghost predicate MatchedBy(s: string, k: nat)
  {
    exists i: nat, a: nat, b: nat, e: nat :: EmailAt(s, i, a, b, e) && e <= k
  }

  /** `s[a]` is an `@` after a non-space, and `s[a+1..k]` has no space: an open `x@y` with `y` read so far. */
  ghost predicate OpenAt(s: string, k: nat, a: nat)
  {
    1 <= a < k <= |s| && s[a] == '@' && !IsSpace(s[a - 1]) && Solid(s, a + 1, k)
  }

  /** Some open `x@y` reaches the end of `s[..k]`. */
  ghost predicate Open(s: string, k: nat)
  {
    exists a: nat :: OpenAt(s, k, a)
  }

  /** Some open `x@y` with a non-empty `y` reaches the end of `s[..k]`. */
  ghost predicate Body(s: string, k: nat)
  {
    exists a: nat :: OpenAt(s, k, a) && a + 1 < k
  }

  /** `s[b]` is a `.` that closes a non-empty `y` of an open `x@y`. */
  ghost predicate DotAt(s: string, b: nat)
  {
    b < |s| && s[b] == '.' && Body(s, b)
  }

  /** What the scanner remembers about the prefix it has read. */
  datatype EmailScan = EmailScan(solid: bool, open: bool, body: bool, dot: bool, matched: bool)

  /** The meaning of each flag after reading `s[..k]`. */
  ghost predicate EmailScanState(s: string, k: nat, st: EmailScan)
  {
    k <= |s| &&
    (st.solid <==> 1 <= k && !IsSpace(s[k - 1])) &&
    (st.open <==> Open(s, k)) &&
    (st.body <==> Body(s, k)) &&
    (st.dot <==> 1 <= k && DotAt(s, k - 1)) &&
    (st.matched <==> MatchedBy(s, k))
  }

  function EmailStep(st: EmailScan, c: char): EmailScan
  {
    if IsSpace(c) then EmailScan(false, false, false, false, st.matched)
    else EmailScan(true, st.open || (c == '@' && st.solid), st.open, c == '.' && st.body,
                   st.matched || st.dot)
  }

  lemma OpenStep(s: string, k: nat, st: EmailScan)
    requires k < |s| && EmailScanState(s, k, st)
    ensures Open(s, k + 1) <==> EmailStep(st, s[k]).open
  {
    if EmailStep(st, s[k]).open {
      if st.open {
        var a: nat :| OpenAt(s, k, a);
        assert OpenAt(s, k + 1, a);
      } else {
        assert OpenAt(s, k + 1, k);
      }
    }
    if Open(s, k + 1) {
      var a: nat :| OpenAt(s, k + 1, a);
      assert !IsSpace(s[k]);
      if a < k { assert OpenAt(s, k, a); }
    }
  }

  lemma BodyStep(s: string, k: nat, st: EmailScan)
    requires k < |s| && EmailScanState(s, k, st)
    ensures Body(s, k + 1) <==> EmailStep(st, s[k]).body
  {
    if EmailStep(st, s[k]).body {
      var a: nat :| OpenAt(s, k, a);
      assert OpenAt(s, k + 1, a);
    }
    if Body(s, k + 1) {
      var a: nat :| OpenAt(s, k + 1, a) && a + 1 < k + 1;
      assert !IsSpace(s[k]);
      assert OpenAt(s, k, a);
    }
  }

  lemma DotStep(s: string, k: nat, st: EmailScan)
    requires k < |s| && EmailScanState(s, k, st)
    ensures DotAt(s, k) <==> EmailStep(st, s[k]).dot
  {
  }

  lemma MatchedStep(s: string, k: nat, st: EmailScan)
    requires k < |s| && EmailScanState(s, k, st)
    ensures MatchedBy(s, k + 1) <==> EmailStep(st, s[k]).matched
  {
    if MatchedBy(s, k + 1) {
      var i: nat, a: nat, b: nat, e: nat :| EmailAt(s, i, a, b, e) && e <= k + 1;
      if e <= k {
      } else if b + 2 <= k {
        assert EmailAt(s, i, a, b, b + 2);
      } else {
        assert OpenAt(s, k - 1, a) && a + 1 < k - 1;
        assert DotAt(s, k - 1);
        assert st.dot && !IsSpace(s[k]);
      }
    }
    if EmailStep(st, s[k]).matched && !st.matched {
      assert DotAt(s, k - 1);
      var a: nat :| OpenAt(s, k - 1, a) && a + 1 < k - 1;
      assert EmailAt(s, a - 1, a, k - 1, k + 1);
    }
  }

  function ScanEmail(s: string, k: nat, st: EmailScan): bool
    requires k <= |s|
    decreases |s| - k
  {
    if k == |s| then st.matched else ScanEmail(s, k + 1, EmailStep(st, s[k]))
  }

  lemma {:induction false} ScanEmailCorrect(s: string, k: nat, st: EmailScan)
    requires EmailScanState(s, k, st)
    ensures ScanEmail(s, k, st) <==> MatchesEmail(s)
    decreases |s| - k
  {
    if k == |s| {
    } else {
      OpenStep(s, k, st);
      BodyStep(s, k, st);
      DotStep(s, k, st);
      MatchedStep(s, k, st);
      ScanEmailCorrect(s, k + 1, EmailStep(st, s[k]));
    }
  }

  /** `/\S+@\S+\.\S+/.test(s)`. */
  function EmailTest(s: string): (r: bool)
    ensures r <==> MatchesEmail(s)
  {
    ScanEmailCorrect(s, 0, EmailScan(false, false, false, false, false));
    ScanEmail(s, 0, EmailScan(false, false, false, false, false))
  }

  /**
   * Equivalently: some `@` has a non-space just before it, and is followed by at least one
   * non-space and then a `.` that has a non-space right after it.
   */
  lemma EmailShortestWitness(s: string)
    ensures MatchesEmail(s) <==> exists a: nat, b: nat :: ShortEmailAt(s, a, b)
  {
    if MatchesEmail(s) {
      var i: nat, a: nat, b: nat, e: nat :| EmailAt(s, i, a, b, e);
      assert ShortEmailAt(s, a, b);
    }
  }

  /** The shortest match around the `@` at `a` and the `.` at `b`: one character on each outer side. */
  ghost predicate ShortEmailAt(s: string, a: nat, b: nat)
  {
    1 <= a && EmailAt(s, a - 1, a, b, b + 2)
  }
}
