/**
 * The dashboard header: the shortened wallet address, the mobile menu's
 * open flag, and the two disconnect buttons.
 */
module Header {
  import opened Common

  /** `address.slice(0, 6)`: at most the first six characters. */
  function Head(a: string): (r: string)
    ensures |r| == Min(6, |a|) && r == a[..|r|]
  {
    if |a| <= 6 then a else a[..6]
  }

  /** `address.slice(-4)`: at most the last four characters, the whole string when shorter. */
  function Tail(a: string): (r: string)
    ensures |r| == Min(4, |a|) && r == a[|a| - |r|..]
  {
    if |a| <= 4 then a else a[|a| - 4..]
  }

  /** `formatAddress`: the head, an ellipsis, and the tail. */
  function FormatAddress(a: string): (r: string)
    ensures |r| == Min(6, |a|) + 3 + Min(4, |a|)
    ensures r[Min(6, |a|)..Min(6, |a|) + 3] == "..."
  {
    Head(a) + "..." + Tail(a)
  }

  /** An address of ten characters or more shows its first six and last four around an ellipsis. */
  lemma LongAddressFormat(a: string)
    requires |a| >= 10
    ensures |FormatAddress(a)| == 13
    ensures FormatAddress(a)[..6] == a[..6]
    ensures FormatAddress(a)[6..9] == "..."
    ensures FormatAddress(a)[9..] == a[|a| - 4..]
  {
    var r := FormatAddress(a);
    assert r == a[..6] + "..." + a[|a| - 4..];
  }

  /** A 42-character Ethereum address becomes 13 characters: `0x` and four hex digits, `...`, four hex digits. */
  lemma EthereumAddressFormat(a: string)
    requires |a| == 42
    ensures |FormatAddress(a)| == 13
  {
  }

  /** An address of four characters or fewer is shown twice. */
  lemma ShortAddressRepeats(a: string)
    requires |a| <= 4
    ensures FormatAddress(a) == a + "..." + a
  {
  }

  /** The menu flag and the number of disconnect requests sent to the page. */
  class HeaderState {
    var mobileMenuOpen: bool
    var disconnectRequests: nat

    constructor ()
      ensures !mobileMenuOpen && disconnectRequests == 0
    {
      mobileMenuOpen := false;
      disconnectRequests := 0;
    }

    /** The menu button flips the flag. */
    method ToggleMobileMenu()
      modifies this
      ensures mobileMenuOpen == !old(mobileMenuOpen)
      ensures disconnectRequests == old(disconnectRequests)
    {
      mobileMenuOpen := !mobileMenuOpen;
    }

    /** The desktop button only asks the page to disconnect. */
    method Disconnect()
      modifies this
      ensures disconnectRequests == old(disconnectRequests) + 1
      ensures mobileMenuOpen == old(mobileMenuOpen)
    {
      disconnectRequests := disconnectRequests + 1;
    }

    /** The mobile button, shown only inside the open menu, disconnects and closes the menu. */
    method MobileDisconnect()
      requires mobileMenuOpen
      modifies this
      ensures disconnectRequests == old(disconnectRequests) + 1
      ensures !mobileMenuOpen
    {
      disconnectRequests := disconnectRequests + 1;
      mobileMenuOpen := false;
    }
  }
}
