/** The protocol message that links, handlers and the codec exchange. */
module Message {

  /** `tags` is empty when the line carries none; `prefix` is empty when absent. */
  datatype Message = Message(tags: map<string, string>, prefix: string, command: string, params: seq<string>)

  function Plain(prefix: string, command: string, params: seq<string>): Message {
    Message(map[], prefix, command, params)
  }

  /** The position of the first `c` in `s`, or the length of `s` when there is none. */
  function IndexOf(s: string, c: char): (i: nat)
    ensures i <= |s|
    ensures i < |s| ==> s[i] == c
    ensures c !in s[..i]
    ensures c in s <==> i < |s|
  {
    if s == "" then 0
    else if s[0] == c then 0
    else
      var i := 1 + IndexOf(s[1..], c);
      assert s[..i] == [s[0]] + s[1..][..i - 1];
      i
  }

  /** The nickname half of a nick!user@host prefix; a prefix without '!' is returned unchanged. */
  function SenderOf(prefix: string): string {
    prefix[..IndexOf(prefix, '!')]
  }

  lemma {:induction false} IndexOfSplit(a: string, c: char, b: string)
    requires c !in a
    ensures IndexOf(a + [c] + b, c) == |a|
  {
    var s := a + [c] + b;
    if a != "" {
      assert s[0] == a[0] && a[0] in a;
      assert s[1..] == a[1..] + [c] + b;
      IndexOfSplit(a[1..], c, b);
    }
  }

  lemma IndexOfAbsent(s: string, c: char)
    requires c !in s
    ensures IndexOf(s, c) == |s|
  {
  }

  lemma SenderOfMask(nick: string, rest: string)
    requires '!' !in nick
    ensures SenderOf(nick + "!" + rest) == nick
  {
    IndexOfSplit(nick, '!', rest);
    assert (nick + "!" + rest)[..|nick|] == nick;
  }
}
