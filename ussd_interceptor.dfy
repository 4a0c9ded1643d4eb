/**
 * The Android accessibility service that watches for USSD codes
 * (ussdinterceptorservice.java): for each text of an accessibility event that begins
 * with "*#" it shows a "blocked" notice. The notices shown so far are the service's
 * state; the toast machinery itself is not modelled.
 */
module UssdInterceptor {
  import opened Wrappers

  /** An accessibility event; its text list, and each text in it, may be null. */
  datatype AccessibilityEvent = AccessibilityEvent(text: Option<seq<Option<string>>>)

  const BlockedNotice: string := "SentinelIT: USSD code blocked"

  /** A text is a USSD code when it begins with the two characters "*#". */
  predicate IsUssdCode(s: string) {
    |s| >= 2 && s[0] == '*' && s[1] == '#'
  }

  /** The same test as Java's `startsWith("*#")`: "*#" is a prefix of the text. */
  lemma UssdCodeIsPrefix(s: string)
    ensures IsUssdCode(s) <==> "*#" <= s
  {
    if IsUssdCode(s) {
      assert s[..2] == "*#";
    }
  }

  /** Texts that do not begin with "*#" are let through. */
  lemma NonCodes()
    ensures !IsUssdCode("") && !IsUssdCode("*") && !IsUssdCode("#*") && !IsUssdCode("*1#")
    ensures IsUssdCode("*#06#")
  {
  }

  /** The non-null texts that are USSD codes, in list order. */
  function BlockedTexts(texts: seq<Option<string>>): (b: seq<string>)
    ensures |b| <= |texts|
    ensures forall i :: 0 <= i < |b| ==> IsUssdCode(b[i])
  {
    if texts == [] then []
    else
      var rest := BlockedTexts(texts[1..]);
      if texts[0].Some? && IsUssdCode(texts[0].value) then [texts[0].value] + rest else rest
  }

  /** Exactly the USSD codes among the non-null texts are blocked. */
  lemma {:induction false} BlockedTextsMembership(texts: seq<Option<string>>, s: string)
    ensures s in BlockedTexts(texts) <==> Some(s) in texts && IsUssdCode(s)
  {
    if texts != [] {
      BlockedTextsMembership(texts[1..], s);
      assert texts == [texts[0]] + texts[1..];
    }
  }

  /** Blocking goes through the list in order: the codes of a list are those of its first
      part followed by those of the rest. */
  lemma {:induction false} BlockedTextsAppend(a: seq<Option<string>>, b: seq<Option<string>>)
    ensures BlockedTexts(a + b) == BlockedTexts(a) + BlockedTexts(b)
  {
    if a == [] {
      assert a + b == b;
    } else {
      assert (a + b)[0] == a[0] && (a + b)[1..] == a[1..] + b;
      BlockedTextsAppend(a[1..], b);
    }
  }

  /** One notice per blocked text. */
  function NoticesFor(texts: seq<Option<string>>): (ns: seq<string>)
    ensures |ns| == |BlockedTexts(texts)|
    ensures forall i :: 0 <= i < |ns| ==> ns[i] == BlockedNotice
  {
    seq(|BlockedTexts(texts)|, _ => BlockedNotice)
  }

  /** How many entries of the list are non-null texts beginning with "*#", counted from the end. */
  function CodeCount(texts: seq<Option<string>>): nat {
    if texts == [] then 0
    else
      var last := texts[|texts| - 1];
      CodeCount(texts[..|texts| - 1]) + (if last.Some? && IsUssdCode(last.value) then 1 else 0)
  }

  /** One notice per list entry that is a USSD code, and nothing but notices. */
  lemma {:induction false} NoticesCount(texts: seq<Option<string>>)
    ensures |NoticesFor(texts)| == CodeCount(texts)
    ensures forall n :: n in NoticesFor(texts) ==> n == BlockedNotice
  {
    if texts != [] {
      var init := texts[..|texts| - 1];
      NoticesCount(init);
      BlockedTextsAppend(init, [texts[|texts| - 1]]);
      assert init + [texts[|texts| - 1]] == texts;
    }
  }

  /** The notices an event gives: none for a null event or a null text list. */
  function Notices(event: Option<AccessibilityEvent>): (ns: seq<string>)
    ensures event.None? || event.value.text.None? ==> ns == []
    ensures event.Some? && event.value.text.Some? ==> |ns| == |BlockedTexts(event.value.text.value)|
  {
    if event.None? || event.value.text.None? then [] else NoticesFor(event.value.text.value)
  }

  class UssdInterceptorService {
    /** The notices shown so far, oldest first. */
    var shown: seq<string>

    constructor ()
      ensures shown == []
    {
      shown := [];
    }

    /** Shows one notice for each non-null text of the event that begins with "*#". */
    method OnAccessibilityEvent(event: Option<AccessibilityEvent>)
      modifies this
      ensures shown == old(shown) + Notices(event)
      ensures event.None? || event.value.text.None? ==> shown == old(shown)
      ensures event.Some? && event.value.text.Some? ==>
        |shown| == |old(shown)| + CodeCount(event.value.text.value)
    {
      if event.None? || event.value.text.None? {
        return;
      }
      var texts := event.value.text.value;
      for i := 0 to |texts|
        invariant shown == old(shown) + NoticesFor(texts[..i])
      {
        BlockedTextsAppend(texts[..i], [texts[i]]);
        assert texts[..i + 1] == texts[..i] + [texts[i]];
        var text := texts[i];
        if text.Some? && IsUssdCode(text.value) {
          shown := shown + [BlockedNotice];
        }
      }
      assert texts[..|texts|] == texts;
      NoticesCount(texts);
    }

    /** The system interrupting the service's feedback changes nothing. */
    method OnInterrupt()
      ensures shown == old(shown)
    {
    }
  }
}
