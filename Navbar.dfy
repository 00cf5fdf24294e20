/** The top bar's short form of the connected wallet address. */
module Navbar {
  import opened Wrappers
  import opened Seqs

  /** `s.slice(-n)` for `n >= 0`: the last `n` elements, or all of them when there are fewer. */
  function LastChars(s: string, n: nat): (r: string)
    ensures |r| == Min(n, |s|)
    ensures r == s[|s| - |r|..]
  {
    if n >= |s| then s else s[|s| - n..]
  }

  /**
   * `truncatedAddress`: "" with no address (null or empty); otherwise the
   * first six characters, "..." and the last four, each cut to the length
   * of the address.
   */
  function TruncatedAddress(address: Option<string>): (r: string)
    ensures address.None? || address.value == "" <==> r == ""
    ensures address.Some? && address.value != "" ==>
              var a := address.value;
              && |r| == Min(6, |a|) + 3 + Min(4, |a|)
              && r[..Min(6, |a|)] == a[..Min(6, |a|)]
              && r[Min(6, |a|)..Min(6, |a|) + 3] == "..."
              && r[Min(6, |a|) + 3..] == a[|a| - Min(4, |a|)..]
  {
    if address.Some? && address.value != "" then
      var a := address.value;
      Slice(a, 0, 6) + "..." + LastChars(a, 4)
    else ""
  }

  /** A full-length address (ten characters or more) always shows as thirteen characters. */
  lemma LongAddressLength(a: string)
    requires |a| >= 10
    ensures |TruncatedAddress(Some(a))| == 13
    ensures TruncatedAddress(Some(a))[..6] == a[..6]
    ensures TruncatedAddress(Some(a))[9..] == a[|a| - 4..]
  {
  }

  /**
   * Two full-length addresses with the same short form agree on their first
   * six and last four characters, and nothing more can be told apart.
   */
  lemma {:induction false} SameShortForm(a: string, b: string)
    requires |a| >= 10 && |b| >= 10
    ensures TruncatedAddress(Some(a)) == TruncatedAddress(Some(b)) <==> a[..6] == b[..6] && a[|a| - 4..] == b[|b| - 4..]
  {
    LongAddressLength(a);
    LongAddressLength(b);
    var ta, tb := TruncatedAddress(Some(a)), TruncatedAddress(Some(b));
    if a[..6] == b[..6] && a[|a| - 4..] == b[|b| - 4..] {
      assert ta == ta[..6] + ta[6..9] + ta[9..];
      assert tb == tb[..6] + tb[6..9] + tb[9..];
    }
  }
}
