/**
 * Reading the session key out of the login answer (`getRestSessionKey`):
 * the text content of the first `sessionKey` element.
 */
module Session {
  import opened Wrappers
  import opened Strings

  const SessionKeyTag := "<sessionKey>"

  /**
   * The text after the first `<sessionKey>` tag up to the next `<`. There is
   * no key when the tag is absent, when the element has no text child, or
   * when the text is never closed.
   */
  function ExtractSessionKey(body: string): (key: Option<string>)
    ensures key.Some? ==> key.value != [] && '<' !in key.value
    ensures key.Some? ==> exists i: nat :: OccursAt(body, SessionKeyTag, i)
    ensures (forall i: nat :: !OccursAt(body, SessionKeyTag, i)) ==> key.None?
  {
    match FindFrom(body, SessionKeyTag, 0)
    case None => None
    case Some(i) =>
      var text := body[i + |SessionKeyTag|..];
      var k := IndexOf(text, '<');
      if k == 0 || k == |text| then None else Some(text[..k])
  }

  /** The key is the text of the first element, whatever follows it. */
  lemma ExtractFirstKey(before: string, key: string, rest: string)
    requires key != [] && '<' !in key
    requires rest != [] && rest[0] == '<'
    requires forall j: nat :: j < |before| ==> !OccursAt(before + SessionKeyTag + key + rest, SessionKeyTag, j)
    ensures ExtractSessionKey(before + SessionKeyTag + key + rest) == Some(key)
  {
    var body := before + SessionKeyTag + key + rest;
    assert body == before + SessionKeyTag + (key + rest);
    Infix(before, SessionKeyTag, key + rest);
    FindFromFirst(body, SessionKeyTag, 0, |before|);
    Infix(key, rest, []);
    IndexOfIs(key + rest, '<', |key|);
  }

  /** No tag starts inside a prefix whose only `<` is its first character, not followed by `s`. */
  lemma NoTagWithin(before: string, after: string)
    requires |before| >= 2 && before[1] != SessionKeyTag[1] && '<' !in before[1..]
    ensures forall j: nat :: j < |before| ==> !OccursAt(before + after, SessionKeyTag, j)
  {
    var s := before + after;
    forall j: nat | j < |before| ensures !OccursAt(s, SessionKeyTag, j) {
      if j + |SessionKeyTag| > |s| {
      } else if j == 0 {
        assert s[j..j + |SessionKeyTag|][1] == before[1];
      } else {
        assert s[j..j + |SessionKeyTag|][0] == before[1..][j - 1];
      }
    }
  }

  /** Inside a `<response>` element, the key is the text of the first sessionKey element. */
  lemma ExtractFromResponse(key: string)
    requires key != [] && '<' !in key
    ensures ExtractSessionKey("<response>" + SessionKeyTag + key + "</sessionKey></response>") == Some(key)
  {
    var rest := "</sessionKey></response>";
    assert "<response>" + (SessionKeyTag + key + rest) == "<response>" + SessionKeyTag + key + rest;
    NoTagWithin("<response>", SessionKeyTag + key + rest);
    ExtractFirstKey("<response>", key, rest);
  }

  /** The login answer `<response><sessionKey>ABC123</sessionKey></response>` yields `ABC123`. */
  lemma ExtractExample()
    ensures ExtractSessionKey("<response>" + SessionKeyTag + "ABC123" + "</sessionKey></response>") == Some("ABC123")
  {
    ExtractFromResponse("ABC123");
  }

  /** An answer without a sessionKey element yields no key. */
  lemma ExtractMissingExample()
    ensures ExtractSessionKey("<response></response>") == None
  {
    var body := "<response></response>";
    assert body == "<response>" + "</response>";
    NoTagWithin("<response>", "</response>");
  }
}
