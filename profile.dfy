/** The password-strength meter of the profile page: a score from 0 to 4
    built from length and character classes, its label and colour, and the
    suggestions for what is missing. */
module Profile {
  datatype Strength = Strength(score: int, labelText: string, color: string, suggestions: seq<string>)

  const Labels: seq<string> := ["Very weak", "Weak", "Okay", "Strong", "Very strong"]
  const Colors: seq<string> := ["#ef4444", "#f59e0b", "#eab308", "#10b981", "#16a34a"]

  const StartTyping: string := "Start typing a password"
  const UseTwelve: string := "Use at least 12 characters"
  const MixCase: string := "Mix UPPER and lower case"
  const AddNumber: string := "Add a number"
  const AddSymbol: string := "Add a special character"

  predicate IsLowerAscii(c: char) { 'a' <= c <= 'z' }
  predicate IsUpperAscii(c: char) { 'A' <= c <= 'Z' }
  predicate IsDigit(c: char) { '0' <= c <= '9' }

  /** `/[a-z]/`, `/[A-Z]/`, `/\d/` and `/[^A-Za-z0-9]/` each match somewhere. */
  predicate HasLower(pw: string) { exists i :: 0 <= i < |pw| && IsLowerAscii(pw[i]) }
  predicate HasUpper(pw: string) { exists i :: 0 <= i < |pw| && IsUpperAscii(pw[i]) }
  predicate HasNumber(pw: string) { exists i :: 0 <= i < |pw| && IsDigit(pw[i]) }
  predicate HasSymbol(pw: string)
  {
    exists i :: 0 <= i < |pw| && !IsLowerAscii(pw[i]) && !IsUpperAscii(pw[i]) && !IsDigit(pw[i])
  }

  /** The points for length: one from 8 characters, a second from 12. */
  function LengthPoints(n: nat): (p: int)
    ensures n >= 12 ==> p == 2
    ensures 8 <= n < 12 ==> p == 1
    ensures n < 8 ==> p == 0
  {
    (if n >= 8 then 1 else 0) + (if n >= 12 then 1 else 0)
  }

  /** The point for mixed case, or for upper case with a digit or symbol. */
  predicate CasePoint(pw: string)
  {
    (HasLower(pw) && HasUpper(pw)) || (HasUpper(pw) && (HasNumber(pw) || HasSymbol(pw)))
  }

  /** The score before the cap at 4. */
  function RawScore(pw: string): (s: int)
    ensures 0 <= s <= 4
  {
    LengthPoints(|pw|) + (if CasePoint(pw) then 1 else 0) + (if HasNumber(pw) && HasSymbol(pw) then 1 else 0)
  }

  /** The suggestions, in the order they are pushed. */
  function Suggestions(pw: string): (s: seq<string>)
    ensures |s| <= 4
    ensures |pw| < 12 <==> s != [] && s[0] == UseTwelve
  {
    (if |pw| < 12 then [UseTwelve] else [])
      + (if !(HasLower(pw) && HasUpper(pw)) then [MixCase] else [])
      + (if !HasNumber(pw) then [AddNumber] else [])
      + (if !HasSymbol(pw) then [AddSymbol] else [])
  }

  /** `evaluatePassword`: the score is accumulated point by point and capped
      at 4, then the suggestions are pushed one by one. */
  method EvaluatePassword(pw: string) returns (r: Strength)
    ensures pw == [] ==> r == Strength(0, Labels[0], Colors[0], [StartTyping])
    ensures pw != [] ==> r.score == RawScore(pw) && r.suggestions == Suggestions(pw)
    ensures 0 <= r.score <= 4 && r.labelText == Labels[r.score] && r.color == Colors[r.score]
  {
    if pw == [] {
      return Strength(0, "Very weak", "#ef4444", [StartTyping]);
    }
    var hasLower, hasUpper, hasNumber, hasSymbol := HasLower(pw), HasUpper(pw), HasNumber(pw), HasSymbol(pw);
    var length := |pw|;
    var score := 0;
    if length >= 8 { score := score + 1; }
    if length >= 12 { score := score + 1; }
    if (hasLower && hasUpper) || (hasUpper && (hasNumber || hasSymbol)) { score := score + 1; }
    if hasNumber && hasSymbol { score := score + 1; }
    if score > 4 { score := 4; }
    var suggestions: seq<string> := [];
    ghost var twelve := if length < 12 then [UseTwelve] else [];
    ghost var mix := if !(hasLower && hasUpper) then [MixCase] else [];
    ghost var number := if !hasNumber then [AddNumber] else [];
    if length < 12 { suggestions := suggestions + [UseTwelve]; }
    assert suggestions == twelve;
    if !(hasLower && hasUpper) { suggestions := suggestions + [MixCase]; }
    assert suggestions == twelve + mix;
    if !hasNumber { suggestions := suggestions + [AddNumber]; }
    assert suggestions == twelve + mix + number;
    if !hasSymbol { suggestions := suggestions + [AddSymbol]; }
    r := Strength(score, Labels[score], Colors[score], suggestions);
  }

  /** Each suggestion is given exactly when its test fails, and a non-empty
      password is never told to start typing. */
  lemma SuggestionsExact(pw: string)
    ensures var s := Suggestions(pw);
            (UseTwelve in s <==> |pw| < 12)
            && (MixCase in s <==> !(HasLower(pw) && HasUpper(pw)))
            && (AddNumber in s <==> !HasNumber(pw))
            && (AddSymbol in s <==> !HasSymbol(pw))
            && |s| <= 4 && StartTyping !in s
  {
    assert UseTwelve[0] == 'U' && MixCase[0] == 'M' && AddNumber[0] == 'A' && StartTyping[0] == 'S';
    assert AddNumber[6] == 'n' && AddSymbol[6] == 's' && AddSymbol[0] == 'A';
  }

  /** The cap at 4 never changes the score: the four tests give at most four
      points between them. */
  lemma CapNeverApplies(pw: string)
    ensures RawScore(pw) <= 4
    ensures LengthPoints(|pw|) <= 2
  {
  }

  /** A password of at least 12 characters with lower case, upper case, a
      digit and a symbol scores 4 and draws no suggestion. */
  lemma StrongPasswordScoresFour(pw: string)
    requires |pw| >= 12 && HasLower(pw) && HasUpper(pw) && HasNumber(pw) && HasSymbol(pw)
    ensures RawScore(pw) == 4 && Suggestions(pw) == []
  {
  }

  /** Any password scoring 4 has a digit and a symbol and is at least 12
      characters long. */
  lemma FourNeedsLengthDigitAndSymbol(pw: string)
    requires RawScore(pw) == 4
    ensures |pw| >= 12 && HasNumber(pw) && HasSymbol(pw) && HasUpper(pw)
  {
  }

  /** A password that draws no suggestion scores 4. */
  lemma NoSuggestionMeansFour(pw: string)
    requires Suggestions(pw) == []
    ensures RawScore(pw) == 4
  {
  }

  /** A character that is not an ASCII letter or digit always satisfies the
      symbol test, so `"aA1!aA1!aA1!"` scores 4. */
  lemma ExampleStrong()
    ensures RawScore("aA1!aA1!aA1!") == 4
  {
    var pw := "aA1!aA1!aA1!";
    assert IsLowerAscii(pw[0]) && IsUpperAscii(pw[1]) && IsDigit(pw[2]);
    assert !IsLowerAscii(pw[3]) && !IsUpperAscii(pw[3]) && !IsDigit(pw[3]);
  }
}
