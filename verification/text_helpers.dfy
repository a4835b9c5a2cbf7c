/**
 * The two text helpers the list view applies to an exhibitor's description:
 * `removeHtmlTags` (src/App.js:147-151) and `limitText` (src/App.js:153-159).
 */
module TextHelpers {
  import Strings

  /** The JavaScript values these helpers receive and return. */
  datatype JsValue = Null | False | Str(s: string)

  /** JavaScript truthiness restricted to these values. */
  predicate Truthy(v: JsValue)
  {
    v.Str? && v.s != ""
  }

  /** No `<` is followed, anywhere later, by a `>`: nothing the tag pattern can match. */
  predicate TagFree(s: string)
  {
    forall i, j :: 0 <= i < j < |s| && s[i] == '<' ==> s[j] != '>'
  }

  /**
   * `s.replace(/<[^>]*>/g, "")`. Scanning left to right, a `<` that has a
   * `>` somewhere after it starts a match that ends at the first such `>`;
   * the whole match is dropped. Every other character is kept.
   */
  function StripTags(s: string): (r: string)
    ensures |r| <= |s|
    ensures forall ch :: ch in r ==> ch in s
    ensures TagFree(r)
    decreases |s|
  {
    if |s| == 0 then ""
    else if s[0] == '<' && '>' in s[1..] then
      var close := Strings.IndexOf(s[1..], '>');
      StripTags(s[1..][close + 1..])
    else
      var rest := StripTags(s[1..]);
      assert forall j :: 0 <= j < |rest| ==> rest[j] in s[1..];
      [s[0]] + rest
  }

  /** A string the pattern cannot match in is returned as it is. */
  lemma {:induction false} StripTagFree(s: string)
    requires TagFree(s)
    ensures StripTags(s) == s
    decreases |s|
  {
    if |s| > 0 {
      assert TagFree(s[1..]) by {
        forall i, j | 0 <= i < j < |s[1..]| && s[1..][i] == '<'
          ensures s[1..][j] != '>'
        {
          assert s[i + 1] == '<' && s[j + 1] == s[1..][j];
        }
      }
      StripTagFree(s[1..]);
      assert s == [s[0]] + s[1..];
    }
  }

  /** In particular, text without any `<` is left unchanged. */
  lemma NoOpenBracketUnchanged(s: string)
    requires '<' !in s
    ensures StripTags(s) == s
  {
    StripTagFree(s);
  }

  /** Removing tags a second time changes nothing. */
  lemma StripIdempotent(s: string)
    ensures StripTags(StripTags(s)) == StripTags(s)
  {
    StripTagFree(StripTags(s));
  }

  /** A complete tag after tag-less text is cut out, text and all up to its `>`. */
  lemma {:induction false} StripDropsTag(p: string, t: string, b: string)
    requires '<' !in p && '>' !in t
    ensures StripTags(p + ['<'] + t + ['>'] + b) == p + StripTags(b)
    decreases |p|
  {
    var s := p + ['<'] + t + ['>'] + b;
    if |p| == 0 {
      assert s[1..] == t + ['>'] + b;
      assert s[1..][|t|] == '>';
      var close := Strings.IndexOf(s[1..], '>');
      assert close == |t|;
      assert s[1..][close + 1..] == b;
    } else {
      assert s[0] == p[0] && s[0] != '<';
      assert s[1..] == p[1..] + ['<'] + t + ['>'] + b;
      StripDropsTag(p[1..], t, b);
      assert p == [p[0]] + p[1..];
    }
  }

  /**
   * `removeHtmlTags(str)`: `false` for `null` and for `""`; otherwise the
   * value's text (`false.toString()` is `"false"`) with every tag removed.
   */
  function RemoveHtmlTags(v: JsValue): (r: JsValue)
    ensures r == False <==> v == Null || v == Str("")
    ensures v.Str? && v.s != "" ==> r == Str(StripTags(v.s))
    ensures v.Str? && v.s != "" ==> |r.s| <= |v.s| && TagFree(r.s)
    ensures v == False ==> r == Str("false")
  {
    match v
    case Null => False
    case False => assert TagFree("false"); StripTagFree("false"); Str(StripTags("false"))
    case Str(s) => if s == "" then False else Str(StripTags(s))
  }

  /** A numeric `splice` count clamped to what the array holds, as `Array.prototype.splice` does. */
  function Clamp(n: int, len: nat): (k: nat)
    ensures k <= len
    ensures n <= 0 ==> k == 0
    ensures 0 <= n <= len ==> k == n
    ensures n >= len ==> k == len
  {
    if n <= 0 then 0 else if n >= len then len else n
  }

  /**
   * `limitText(text, limit)`: `""` for a falsy `text`; otherwise
   * `text.split(" ").splice(0, limit).join(" ")`, the first `limit` words.
   */
  function LimitText(text: JsValue, limit: int): (r: string)
    ensures !Truthy(text) ==> r == ""
    ensures Truthy(text) ==> r <= text.s
    ensures Truthy(text) && |Strings.Split(text.s, ' ')| <= limit ==> r == text.s
    ensures Truthy(text) && limit >= 1 ==>
      var words := Strings.Split(text.s, ' ');
      Strings.Split(r, ' ') == words[..Clamp(limit, |words|)]
    ensures limit <= 0 ==> r == ""
  {
    if !Truthy(text) then ""
    else
      var words := Strings.Split(text.s, ' ');
      var k := Clamp(limit, |words|);
      var r := Strings.Join(words[..k], ' ');
      Strings.JoinSplit(text.s, ' ');
      if k == 0 then r
      else
        Strings.JoinTakeIsPrefix(words, k, ' ');
        Strings.SplitJoin(words[..k], ' ');
        assert words[..|words|] == words;
        r
  }
}
