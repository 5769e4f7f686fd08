/**
 * The message and phone-number helpers of src/utils.js.
 */
module Utils {
  import opened Base
  import opened JsStrings

  // ---------------------------------------------------------------- extractPhoneNumber

  /** `chatId.match(/^(\d+)@/)?.[1]`: the leading digits when they are followed by '@'. */
  function ExtractPhoneNumber(chatId: string): Option<string> {
    var n := DigitRunLength(chatId);
    if 0 < n < |chatId| && chatId[n] == '@' then Some(chatId[..n]) else None
  }

  /** `chatId` starts with `k` digits and then '@': one way the pattern can match. */
  predicate DigitsThenAt(chatId: string, k: nat) {
    0 < k < |chatId| && AllDigits(chatId[..k]) && chatId[k] == '@'
  }

  /**
   * The pattern matches exactly when the chat id starts with one or more digits
   * followed by '@', and the captured number is those digits: non-empty, all
   * digits, and followed by '@' it is a prefix of the chat id.
   */
  lemma ExtractPhoneNumberSpec(chatId: string)
    ensures ExtractPhoneNumber(chatId).Some? <==> exists k :: DigitsThenAt(chatId, k)
    ensures ExtractPhoneNumber(chatId).Some? ==>
              var d := ExtractPhoneNumber(chatId).value;
              d != "" && AllDigits(d) && |d + "@"| <= |chatId| && chatId[..|d| + 1] == d + "@"
  {
    var n := DigitRunLength(chatId);
    if exists k :: DigitsThenAt(chatId, k) {
      var k: nat :| DigitsThenAt(chatId, k);
      // '@' is not a digit, so the digit run stops at k: neither earlier nor later.
      forall i | 0 <= i < k ensures IsDigit(chatId[i]) {
        assert chatId[..k][i] == chatId[i];
      }
      assert !IsDigit(chatId[k]);
      assert n == k;
    }
    if ExtractPhoneNumber(chatId).Some? {
      assert DigitsThenAt(chatId, n);
      assert chatId[..n + 1] == chatId[..n] + "@";
    }
  }

  /** The chat ids of the source's comment: an individual's and a group's. */
  lemma ExtractPhoneNumberOfChatId(number: string, suffix: string)
    requires number != "" && AllDigits(number) && (suffix == "c.us" || suffix == "g.us")
    ensures ExtractPhoneNumber(number + "@" + suffix) == Some(number)
  {
    DigitRunOfDigits(number, "@" + suffix);
    assert number + "@" + suffix == number + ("@" + suffix);
  }

  // ---------------------------------------------------------------- formatPhoneNumber

  /** `s.replace(/\D/g, "")`: the digits of `s`, in order. */
  function Digits(s: string): (r: string)
    ensures AllDigits(r) && |r| <= |s|
  {
    if s == [] then "" else (if IsDigit(s[0]) then [s[0]] else "") + Digits(s[1..])
  }

  /** Removing the non-digits keeps the digits' order: it distributes over concatenation. */
  lemma {:induction false} DigitsAppend(a: string, b: string)
    ensures Digits(a + b) == Digits(a) + Digits(b)
  {
    if a == [] {
      assert a + b == b;
    } else {
      assert (a + b)[1..] == a[1..] + b;
      DigitsAppend(a[1..], b);
    }
  }

  /** A string of digits is left as it is. */
  lemma {:induction false} DigitsOfDigits(s: string)
    requires AllDigits(s)
    ensures Digits(s) == s
  {
    if s != [] {
      DigitsOfDigits(s[1..]);
    }
  }

  /** `formatPhoneNumber`: "+1" before exactly ten digits, "+" before any other number of digits. */
  function FormatPhoneNumber(phoneNumber: string): (r: string)
    ensures |r| >= 1 && r[0] == '+' && AllDigits(r[1..])
  {
    var cleaned := Digits(phoneNumber);
    if |cleaned| == 10 then "+1" + cleaned else "+" + cleaned
  }

  /**
   * The digits of the result are the input's digits, in order, behind a "1"
   * exactly when there were ten of them.
   */
  lemma FormatPhoneNumberDigits(phoneNumber: string)
    ensures Digits(FormatPhoneNumber(phoneNumber)) ==
            (if |Digits(phoneNumber)| == 10 then "1" + Digits(phoneNumber) else Digits(phoneNumber))
  {
    var d := Digits(phoneNumber);
    if |d| == 10 {
      assert FormatPhoneNumber(phoneNumber) == "+" + ("1" + d);
      assert AllDigits("1" + d) by {
        assert forall i :: 1 <= i < |"1" + d| ==> ("1" + d)[i] == d[i - 1];
      }
      DigitsAfterPlus("1" + d);
    } else {
      DigitsAfterPlus(d);
    }
  }

  /** A "+" followed by digits keeps just the digits. */
  lemma DigitsAfterPlus(tail: string)
    requires AllDigits(tail)
    ensures Digits("+" + tail) == tail
  {
    DigitsAppend("+", tail);
    DigitsOfDigits(tail);
  }

  /** Formatting a formatted number changes nothing. */
  lemma FormatPhoneNumberIdempotent(phoneNumber: string)
    ensures FormatPhoneNumber(FormatPhoneNumber(phoneNumber)) == FormatPhoneNumber(phoneNumber)
  {
    FormatPhoneNumberDigits(phoneNumber);
  }

  // ---------------------------------------------------------------- formatMessageForStorage

  /** The fields of a whatsapp-web.js message that are stored; a falsy `author` is "". */
  datatype ChatMessage = ChatMessage(
    id: string,
    from: string,
    author: string,
    body: string,
    timestamp: int,
    isGroupMsg: bool,
    kind: string,
    hasMedia: bool,
    deviceType: string,
    isForwarded: bool)

  /**
   * The stored record. `createdAtMs` is the argument `new Date(...)` receives;
   * its ISO rendering is left out.
   */
  datatype StoredMessage = StoredMessage(
    id: string,
    from: string,
    author: Option<string>,
    body: string,
    createdAtMs: int,
    isGroupMsg: bool,
    kind: string,
    hasMedia: bool,
    deviceType: string,
    isForwarded: bool)

  function FormatMessageForStorage(m: ChatMessage): StoredMessage {
    StoredMessage(m.id, m.from, if m.author != "" then Some(m.author) else None, m.body, m.timestamp * 1000,
                  m.isGroupMsg, m.kind, m.hasMedia, m.deviceType, m.isForwarded)
  }

  /** The stored fields of a message, read back from its record: nothing but `author: null` and the time unit differ. */
  function Restore(s: StoredMessage): ChatMessage
    requires s.createdAtMs % 1000 == 0
  {
    ChatMessage(s.id, s.from, if s.author.Some? then s.author.value else "", s.body, s.createdAtMs / 1000,
                s.isGroupMsg, s.kind, s.hasMedia, s.deviceType, s.isForwarded)
  }

  /**
   * Storage loses nothing: every field comes back unchanged, `author` is null
   * exactly when it was falsy, and the time is the seconds in milliseconds.
   */
  lemma FormatMessageRoundTrip(m: ChatMessage)
    ensures var s := FormatMessageForStorage(m);
            s.createdAtMs % 1000 == 0 && Restore(s) == m &&
            (s.author.None? <==> m.author == "") && s.createdAtMs == m.timestamp * 1000
  {
  }
}
