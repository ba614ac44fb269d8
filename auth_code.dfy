/**
  The authorization code created at first start: fifty characters drawn from
  the 62 ASCII letters and digits, written to the code file only when that
  file does not exist yet.
 */
module AuthCode {
  import opened Model
  import Text
  import Security

  const AuthCodeLength: int := 50

  /** Digits, lower-case and upper-case letters, in this order (one literal in the source). */
  const CharacterSet: string := "0123456789" + "abcdefghijklmnopqrstuvwxyz" + "ABCDEFGHIJKLMNOPQRSTUVWXYZ"

  predicate IsAlphanumeric(c: char) {
    '0' <= c <= '9' || 'a' <= c <= 'z' || 'A' <= c <= 'Z'
  }

  /** The character set has 62 characters, all letters or digits, so none is whitespace. */
  lemma {:induction false} CharacterSetAlphanumeric()
    ensures |CharacterSet| == 62
    ensures forall i :: 0 <= i < |CharacterSet| ==> IsAlphanumeric(CharacterSet[i]) && !Text.IsWhitespace(CharacterSet[i])
  {
    var digits, lower, upper := "0123456789", "abcdefghijklmnopqrstuvwxyz", "ABCDEFGHIJKLMNOPQRSTUVWXYZ";
    assert forall i :: 0 <= i < |digits| ==> '0' <= digits[i] <= '9';
    assert forall i :: 0 <= i < |lower| ==> 'a' <= lower[i] <= 'z';
    assert forall i :: 0 <= i < |upper| ==> 'A' <= upper[i] <= 'Z';
  }

  /**
    `generateAuthCode`: appends `AuthCodeLength` characters, each at an index
    chosen at random (left open here) in the character set.
   */
  method GenerateAuthCode() returns (code: string)
    ensures |code| == AuthCodeLength
    ensures forall i :: 0 <= i < |code| ==> code[i] in CharacterSet
  {
    code := [];
    for n := 0 to AuthCodeLength
      invariant |code| == n
      invariant forall i :: 0 <= i < |code| ==> code[i] in CharacterSet
    {
      var index :| 0 <= index < |CharacterSet|;
      code := code + [CharacterSet[index]];
    }
  }

  /**
    A generated code is never blank, so once stored it lets exactly the
    requests through whose header repeats it.
   */
  lemma {:induction false} GeneratedCodeAccepted(code: string, header: Option<string>)
    requires |code| == AuthCodeLength
    requires forall i :: 0 <= i < |code| ==> code[i] in CharacterSet
    ensures !Text.IsBlank(code)
    ensures Security.Filter(header, Security.StoredCode(Some(code))).Proceed? <==> header == Some(code)
  {
    CharacterSetAlphanumeric();
    var k :| 0 <= k < |CharacterSet| && CharacterSet[k] == code[0];
    assert !Text.IsWhitespace(code[0]);
  }

  /**
    `writeNewAuthCodeFileIfNeeded`: `existing` is the code file's content if
    the file exists. An existing file is kept as it is; otherwise a freshly
    generated code is written. Returns the file's content afterwards and
    whether it was written.
   */
  method WriteNewAuthCodeFileIfNeeded(existing: Option<string>) returns (content: string, written: bool)
    ensures written <==> existing.None?
    ensures existing.Some? ==> content == existing.value
    ensures existing.None? ==> |content| == AuthCodeLength && forall i :: 0 <= i < |content| ==> content[i] in CharacterSet
  {
    if existing.None? {
      content := GenerateAuthCode();
      written := true;
    } else {
      content := existing.value;
      written := false;
    }
  }
}
