/** The Korean mobile-number helpers of src/lib/event-utils.ts. */
module Phone {
  import opened Common
  import opened Validations

  /** The characters `/[\s-]/g` removes. */
  predicate IsSeparator(c: char) {
    IsJsSpace(c) || c == '-'
  }

  /** `cleanPhoneNumber`: every whitespace character and `-` removed. */
  function CleanPhone(phone: string): (r: string)
    ensures |r| <= |phone|
    ensures forall i :: 0 <= i < |r| ==> !IsSeparator(r[i])
  {
    if phone == [] then ""
    else if IsSeparator(phone[0]) then CleanPhone(phone[1..])
    else [phone[0]] + CleanPhone(phone[1..])
  }

  /** Cleaning works character by character: it distributes over
      concatenation, drops exactly the separators and keeps every other
      character, in order. */
  lemma {:induction false} CleanAppend(a: string, b: string)
    ensures CleanPhone(a + b) == CleanPhone(a) + CleanPhone(b)
    decreases |a|
  {
    if a != [] {
      var h := if IsSeparator(a[0]) then "" else [a[0]];
      assert (a + b)[0] == a[0] && (a + b)[1..] == a[1..] + b;
      assert CleanPhone(a + b) == h + CleanPhone(a[1..] + b);
      CleanAppend(a[1..], b);
      ConcatAssoc(h, CleanPhone(a[1..]), CleanPhone(b));
    } else {
      assert a + b == b;
    }
  }

  lemma CleanOne(c: char)
    ensures CleanPhone([c]) == if IsSeparator(c) then "" else [c]
  {
    assert [c][1..] == [];
  }

  /** A string without separators is already clean. */
  lemma {:induction false} CleanNoSeparators(s: string)
    requires forall i :: 0 <= i < |s| ==> !IsSeparator(s[i])
    ensures CleanPhone(s) == s
    decreases |s|
  {
    if s != [] {
      CleanNoSeparators(s[1..]);
    }
  }

  /** `cleanPhoneNumber` is idempotent. */
  lemma CleanIdempotent(phone: string)
    ensures CleanPhone(CleanPhone(phone)) == CleanPhone(phone)
  {
    CleanNoSeparators(CleanPhone(phone));
  }

  /** `validateKoreanPhone`: the cleaned number is "01" and eight or nine digits. */
  predicate ValidateKoreanPhone(phone: string) {
    IsMobileNumber(CleanPhone(phone))
  }

  /** A valid number cleans to 10 or 11 digits beginning "01", and the check
      gives the same answer on the cleaned number. */
  lemma ValidateFacts(phone: string)
    ensures ValidateKoreanPhone(phone) ==>
      var c := CleanPhone(phone);
      (|c| == 10 || |c| == 11) && c[..2] == "01" && AllDigits(c)
    ensures ValidateKoreanPhone(phone) == ValidateKoreanPhone(CleanPhone(phone))
  {
    CleanIdempotent(phone);
  }

  /** `formatPhoneNumber`: 3-3-4 for ten cleaned characters, 3-4-4 for
      eleven, the input unchanged otherwise. */
  function FormatPhoneNumber(phone: string): string {
    var c := CleanPhone(phone);
    if |c| == 10 then c[..3] + "-" + c[3..6] + "-" + c[6..]
    else if |c| == 11 then c[..3] + "-" + c[3..7] + "-" + c[7..]
    else phone
  }

  /** Helper for CleanFormat and FormatIdempotent: the formatted number
      has its dashes after the third character and after the sixth (ten)
      or seventh (eleven) character, and the cleaned number's characters in
      order around them; other lengths leave the input as it was. */
  lemma FormatShape(phone: string)
    ensures var c := CleanPhone(phone); var f := FormatPhoneNumber(phone);
      && (|c| == 10 ==> |f| == 12 && f[3] == '-' && f[7] == '-' && f[..3] == c[..3] && f[4..7] == c[3..6] && f[8..] == c[6..])
      && (|c| == 11 ==> |f| == 13 && f[3] == '-' && f[8] == '-' && f[..3] == c[..3] && f[4..8] == c[3..7] && f[9..] == c[7..])
      && (|c| != 10 && |c| != 11 ==> f == phone)
  {
  }

  /** Cleaning the formatted number gives the same result as cleaning the input. */
  lemma CleanFormat(phone: string)
    ensures CleanPhone(FormatPhoneNumber(phone)) == CleanPhone(phone)
  {
    var c := CleanPhone(phone);
    if |c| == 10 || |c| == 11 {
      var m := if |c| == 10 then 6 else 7;
      assert FormatPhoneNumber(phone) == c[..3] + "-" + c[3..m] + "-" + c[m..];
      CleanDashes(c, 3, m);
    }
  }

  /** Two dashes put into a clean text are taken out again. */
  lemma CleanDashes(c: string, i: nat, j: nat)
    requires i <= j <= |c|
    requires forall k :: 0 <= k < |c| ==> !IsSeparator(c[k])
    ensures CleanPhone(c[..i] + "-" + c[i..j] + "-" + c[j..]) == c
  {
    var x, y, z := c[..i], c[i..j], c[j..];
    CleanDash(x + "-" + y, z);
    CleanDash(x, y);
    CleanParts(c, i, j);
  }

  /** The three parts of a clean text are clean, and they make it up. */
  lemma CleanParts(c: string, i: nat, j: nat)
    requires i <= j <= |c|
    requires forall k :: 0 <= k < |c| ==> !IsSeparator(c[k])
    ensures CleanPhone(c[..i]) == c[..i] && CleanPhone(c[i..j]) == c[i..j] && CleanPhone(c[j..]) == c[j..]
    ensures c == c[..i] + c[i..j] + c[j..]
  {
    CleanNoSeparators(c[..i]);
    CleanNoSeparators(c[i..j]);
    CleanNoSeparators(c[j..]);
    assert c == c[..i] + c[i..j] + c[j..];
  }

  /** Cleaning drops a dash between two texts. */
  lemma CleanDash(x: string, y: string)
    ensures CleanPhone(x + "-" + y) == CleanPhone(x) + CleanPhone(y)
  {
    CleanAppend(x + "-", y);
    CleanAppend(x, "-");
    CleanOne('-');
    assert CleanPhone(x + "-") == CleanPhone(x);
  }

  /** Formatting a formatted number changes nothing. */
  lemma FormatIdempotent(phone: string)
    ensures FormatPhoneNumber(FormatPhoneNumber(phone)) == FormatPhoneNumber(phone)
  {
    CleanFormat(phone);
  }
}
