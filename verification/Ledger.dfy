/** Double-entry postings of internal/service/service.go and the account codes they are stored under. */
module Ledger {
  import opened Schema
  import opened Sums
  import opened Decimal

  function Amount(): LedgerEntry -> int {
    (e: LedgerEntry) => e.amount
  }

  function RechargeEntries(viewer: nat, coins: int): seq<LedgerEntry> {
    [LedgerEntry(UserCoins(viewer), coins), LedgerEntry(TopupSource, -coins)]
  }

  function GiftEntries(viewer: nat, charged: int): seq<LedgerEntry> {
    [LedgerEntry(UserCoins(viewer), -charged), LedgerEntry(PlatformReserved, charged)]
  }

  /** The rows that `INSERT INTO wallet_entries` stores for two postings of one transaction. */
  function EntryRows(txId: nat, posts: seq<LedgerEntry>): seq<EntryRow>
    requires |posts| == 2
  {
    [EntryRow(txId, posts[0].account, posts[0].amount), EntryRow(txId, posts[1].account, posts[1].amount)]
  }

  /** SumLedgerEntries. */
  method SumLedgerEntries(entries: seq<LedgerEntry>) returns (sum: int)
    ensures sum == Sum(entries, Amount())
  {
    sum := 0;
    for i := 0 to |entries|
      invariant sum == Sum(entries[..i], Amount())
    {
      assert entries[..i + 1] == entries[..i] + [entries[i]];
      SumAppend(entries[..i], entries[i], Amount());
      sum := sum + entries[i].amount;
    }
    assert entries[..|entries|] == entries;
  }

  /** The zero-sum guard of Recharge and SendGift never fires, whatever the amount. */
  lemma PostingsBalance(viewer: nat, amount: int)
    ensures Sum(RechargeEntries(viewer, amount), Amount()) == 0
    ensures Sum(GiftEntries(viewer, amount), Amount()) == 0
  {
    SumPair([], RechargeEntries(viewer, amount)[0], RechargeEntries(viewer, amount)[1], Amount());
    SumPair([], GiftEntries(viewer, amount)[0], GiftEntries(viewer, amount)[1], Amount());
    assert [] + RechargeEntries(viewer, amount) == RechargeEntries(viewer, amount);
    assert [] + GiftEntries(viewer, amount) == GiftEntries(viewer, amount);
  }

  /** bytesEqual: the idempotency check compares body hashes byte by byte. */
  method BytesEqual(a: Hash, b: Hash) returns (equal: bool)
    ensures equal <==> a == b
  {
    if |a| != |b| {
      return false;
    }
    for i := 0 to |a|
      invariant a[..i] == b[..i]
    {
      if a[i] != b[i] {
        return false;
      }
    }
    assert a == a[..|a|] == b[..|b|] == b;
    return true;
  }

  const USER_PREFIX := "USER_COINS:"

  /** The text stored in wallet_entries.account_code. */
  function AccountCode(a: Account): string {
    match a
    case UserCoins(user) => USER_PREFIX + Digits(user)
    case PlatformReserved => "PLATFORM_RESERVED_COINS"
    case TopupSource => "SYSTEM_TOPUP_SOURCE"
  }

  /** `LIKE 'USER_COINS:%'`: the underscore stands for any one character. */
  predicate LikeUserCoins(code: string) {
    |code| >= 11 && code[..4] == "USER" && code[5..11] == "COINS:"
  }

  /** Account codes identify accounts, and `LIKE 'USER_COINS:%'` selects exactly the user accounts,
      although it would also match other texts than those that start with the prefix. */
  lemma AccountCodesAreFaithful(a: Account, b: Account)
    ensures AccountCode(a) == AccountCode(b) ==> a == b
    ensures LikeUserCoins(AccountCode(a)) <==> a.UserCoins?
  {
    assert "USER"[0] == USER_PREFIX[0] == 'U' && USER_PREFIX[..4] == "USER" && USER_PREFIX[5..11] == "COINS:";
    assert a.UserCoins? ==> AccountCode(a)[..4] == USER_PREFIX[..4] && AccountCode(a)[5..11] == USER_PREFIX[5..11];
    assert a.UserCoins? ==> AccountCode(a)[0] == 'U' && AccountCode(a)[|USER_PREFIX|..] == Digits(a.user);
    assert b.UserCoins? ==> AccountCode(b)[0] == 'U' && AccountCode(b)[|USER_PREFIX|..] == Digits(b.user);
    if a.UserCoins? && b.UserCoins? {
      DigitsInjective(a.user, b.user);
    }
    assert LikeUserCoins(AccountCode(a)) ==> AccountCode(a)[..4][0] == 'U';
  }
}
