/**
  Chat messages and the string helpers shared by the loop and the conversation window.
  A string stands for its bytes: one char below 256 per byte, so lengths are byte lengths.
 */
module Messages {
  // orchestrate.Message
  datatype ChatMessage = ChatMessage(role: string, content: string)

  // llm.Message without image parts; time 0 is the zero time.
  datatype Message = Message(role: string, content: string, time: int)

  function Strip(m: Message): ChatMessage { ChatMessage(m.role, m.content) }

  function StripAll(ms: seq<Message>): (r: seq<ChatMessage>)
    ensures |r| == |ms| && forall i :: 0 <= i < |ms| ==> r[i] == Strip(ms[i])
  {
    seq(|ms|, (i: nat) requires i < |ms| => Strip(ms[i]))
  }

  predicate HasPrefix(s: string, p: string) { p <= s }

  // isToolMessage (engine/trim.go)
  predicate IsToolText(role: string, content: string) {
    || role == "tool"
    || (role == "user" && (HasPrefix(content, "Tool result:") || HasPrefix(content, "Tool error:")))
  }

  function Decimal(n: nat): string {
    if n < 10 then [('0' as int + n) as char]
    else Decimal(n / 10) + [('0' as int + n % 10) as char]
  }

  function ParseDecimal(s: string): int
    decreases |s|
  {
    if s == "" then 0 else 10 * ParseDecimal(s[..|s| - 1]) + (s[|s| - 1] as int - '0' as int)
  }

  lemma {:induction false} DecimalParses(n: nat)
    ensures ParseDecimal(Decimal(n)) == n
  {
    if n >= 10 {
      DecimalParses(n / 10);
      assert Decimal(n)[..|Decimal(n)| - 1] == Decimal(n / 10);
    }
  }

  // utf8.RuneStart on a byte
  predicate RuneStart(c: char) { !(0x80 <= c as int < 0xC0) }

  // r is s cut at the last character boundary at or before n, plus the ellipsis.
  ghost predicate TruncatedAt(s: string, n: nat, r: string)
    requires n < |s|
  {
    exists k :: 0 <= k <= n && r == s[..k] + "..." && (k == 0 || RuneStart(s[k]))
      && forall j :: k < j <= n ==> !RuneStart(s[j])
  }

  // The last character boundary at or before k
  function Boundary(s: string, k: nat): (b: nat)
    requires k < |s|
    ensures b <= k
  {
    if k == 0 || RuneStart(s[k]) then k else Boundary(s, k - 1)
  }

  function Truncated(s: string, n: nat): string {
    if |s| <= n then s else s[..Boundary(s, n)] + "..."
  }

  lemma {:induction false} BoundaryIsLast(s: string, k: nat)
    requires k < |s|
    ensures var b := Boundary(s, k);
            (b == 0 || RuneStart(s[b])) && forall j :: b < j <= k ==> !RuneStart(s[j])
  {
    if k > 0 && !RuneStart(s[k]) {
      BoundaryIsLast(s, k - 1);
    }
  }

  // Truncation never cuts inside a character, and cuts as late as it can.
  lemma TruncatedWhole(s: string, n: nat)
    ensures if |s| <= n then Truncated(s, n) == s else TruncatedAt(s, n, Truncated(s, n))
  {
    if |s| > n {
      BoundaryIsLast(s, n);
    }
  }

  // textutil.Truncate: cut at most n bytes in, never inside a multi-byte character.
  method Truncate(s: string, n: nat) returns (r: string)
    ensures r == Truncated(s, n)
  {
    if |s| <= n {
      return s;
    }
    var k := n;
    while k > 0 && !RuneStart(s[k])
      invariant 0 <= k <= n
      invariant Boundary(s, n) == Boundary(s, k)
    {
      k := k - 1;
    }
    return s[..k] + "...";
  }

  // textutil.TruncateToolResult
  function TruncateToolResult(s: string, maxLen: nat, hint: string): string {
    if |s| <= maxLen then s
    else
      s[..maxLen] + "\n... (truncated: showing " + Decimal(maxLen) + " of " + Decimal(|s|) + " chars"
      + (if hint != "" then ". " + hint else "") + ")"
  }
}
