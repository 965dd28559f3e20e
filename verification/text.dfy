/** The two string tests the spam heuristic relies on: substring search
    (`String.prototype.includes`) and the Japanese-script regular expression. */
module Text {

  /** `sub` occurs in `s` starting at index `i`. */
  predicate OccursAt(s: string, sub: string, i: int)
  {
    0 <= i && i + |sub| <= |s| && s[i..i + |sub|] == sub
  }

  /** When `sub` does not start `s`, it occurs in `s` exactly when it occurs in `s[1..]`. */
  lemma OccursInTail(s: string, sub: string)
    requires |s| > 0 && !OccursAt(s, sub, 0)
    ensures (exists i :: OccursAt(s, sub, i)) <==> (exists j :: OccursAt(s[1..], sub, j))
  {
    if i :| OccursAt(s, sub, i) {
      assert s[1..][i - 1..i - 1 + |sub|] == s[i..i + |sub|];
      assert OccursAt(s[1..], sub, i - 1);
    }
    if j :| OccursAt(s[1..], sub, j) {
      assert s[1..][j..j + |sub|] == s[j + 1..j + 1 + |sub|];
      assert OccursAt(s, sub, j + 1);
    }
  }

  /** `s.includes(sub)`: true exactly when `sub` occurs somewhere in `s`. */
  function Includes(s: string, sub: string): (r: bool)
    ensures r <==> exists i :: OccursAt(s, sub, i)
    decreases |s|
  {
    if |s| < |sub| then false
    else if s[..|sub|] == sub then assert OccursAt(s, sub, 0); true
    else
      assert !OccursAt(s, sub, 0);
      OccursInTail(s, sub);
      Includes(s[1..], sub)
  }

  /** One character of the class `[ぁ-んァ-ヶー一-龯]`: hiragana U+3041..U+3093,
      katakana U+30A1..U+30F6, the prolonged sound mark U+30FC and the CJK
      ideographs U+4E00..U+9FAF. All lie in the Basic Multilingual Plane, so
      matching UTF-16 code units and matching code points agree. */
  predicate IsJapaneseChar(c: char)
  {
    ('\U{3041}' <= c <= '\U{3093}')
    || ('\U{30A1}' <= c <= '\U{30F6}')
    || c == '\U{30FC}'
    || ('\U{4E00}' <= c <= '\U{9FAF}')
  }

  /** `s.match(/[ぁ-んァ-ヶー一-龯]/)` is non-null: some character of `s` is Japanese script. */
  function HasJapaneseScript(s: string): (r: bool)
    ensures r <==> exists i :: 0 <= i < |s| && IsJapaneseChar(s[i])
  {
    if |s| == 0 then false
    else IsJapaneseChar(s[0]) || HasJapaneseScript(s[1..])
  }
}
