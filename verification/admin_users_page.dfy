/** The customer registry for staff: the customer-only list, the name/email
    search, and one customer's order history with recomputed totals and
    zero-padded order numbers. */
module AdminUsersPage {
  import opened Wrappers
  import opened Schema
  import opened Text
  import opened Seqs

  /** A user as the user list sends it. */
  datatype Member = Member(id: int, name: string, email: string, role: string)

  /** A user with its orders, as the detail endpoint sends it; the orders
      field may be missing. */
  datatype MemberDetail = MemberDetail(member: Member, orders: Option<seq<OrderView>>)

  predicate IsCustomerMember(u: Member) {
    u.role == CUSTOMER
  }

  /** Only customers are listed, in the order received. */
  function CustomersOnly(data: seq<Member>): (r: seq<Member>)
    ensures IsSubsequence(r, data)
    ensures forall i | 0 <= i < |r| :: r[i] in data && r[i].role == CUSTOMER
    ensures forall i | 0 <= i < |data| && data[i].role == CUSTOMER :: data[i] in r
  {
    Filter(data, IsCustomerMember)
  }

  /** A member passes the search when the lower-cased name or email contains
      the lower-cased query. */
  predicate MemberMatches(u: Member, query: string) {
    Contains(Lower(u.name), Lower(query)) || Contains(Lower(u.email), Lower(query))
  }

  /** filteredUsers. */
  function FilterMembers(users: seq<Member>, query: string): (r: seq<Member>)
    ensures IsSubsequence(r, users)
    ensures forall i | 0 <= i < |r| :: r[i] in users && MemberMatches(r[i], query)
    ensures forall i | 0 <= i < |users| && MemberMatches(users[i], query) :: users[i] in r
  {
    Filter(users, (u: Member) => MemberMatches(u, query))
  }

  /** A member is found by any part of their email, in any capitalisation. */
  lemma FoundByEmail(u: Member, query: string)
    requires Contains(u.email, query)
    ensures MemberMatches(u, query)
  {
    LowerPreservesContains(u.email, query);
  }

  /** The order count shown: the list's length, 0 when it is missing. */
  function OrderCount(d: MemberDetail): (n: nat)
    ensures d.orders.None? ==> n == 0
    ensures d.orders.Some? ==> n == |d.orders.value|
  {
    if d.orders.Some? then |d.orders.value| else 0
  }

  /** The total shown on a history row, recomputed from the current product
      prices. */
  function DisplayedTotal(o: OrderView): (t: int)
    ensures PricesAndQuantitiesNonNegative(o.items) ==> t >= 0
  {
    LiveTotalNonNegative(o.items);
    LiveTotal(o.items)
  }

  /** It is the stored total plus the drift of each product's price since
      the order was placed, so the two agree until a price changes. */
  lemma DisplayedTotalMatchesStored(o: OrderView)
    requires o.total == ViewCapturedTotal(o.items)
    ensures DisplayedTotal(o) == o.total + PriceDrift(o.items)
    ensures (forall k | 0 <= k < |o.items| :: o.items[k].product.price == o.items[k].price)
      ==> DisplayedTotal(o) == o.total
  {
    LiveTotalDrift(o.items);
    if forall k | 0 <= k < |o.items| :: o.items[k].product.price == o.items[k].price {
      LiveTotalWithoutDrift(o.items);
    }
  }

  /** The order number shown: the decimal id left-padded with '0' to four
      characters; longer ids are shown as they are. */
  function DisplayId(id: int): (r: string)
    ensures |r| == if |IntToString(id)| >= 4 then |IntToString(id)| else 4
    ensures EndsWith(r, IntToString(id))
    ensures |IntToString(id)| >= 4 ==> r == IntToString(id)
  {
    var digits := IntToString(id);
    var r := PadStart(digits, 4, '0');
    assert |digits| >= 4 ==> r[|r| - |digits|..] == r;
    r
  }

  /** The padding loses nothing: the id can be read back from the shown
      number. */
  lemma DisplayIdRoundTrip(id: int)
    requires id >= 1
    ensures AllDigits(DisplayId(id))
    ensures StripLeadingZeros(DisplayId(id)) == IntToString(id)
    ensures ParseNat(StripLeadingZeros(DisplayId(id))) == id
  {
    var digits := IntToString(id);
    StripPaddedZeros(digits, 4);
    ParseNatToString(id);
    var r := DisplayId(id);
    forall i | 0 <= i < |r| ensures IsDigit(r[i]) {
      if i >= |r| - |digits| {
        assert r[i] == r[|r| - |digits|..][i - (|r| - |digits|)];
      }
    }
  }

  lemma DisplayIdExample()
    ensures DisplayId(42) == "0042" && DisplayId(12345) == "12345"
  {
    assert IntToString(42) == "42";
    assert IntToString(12345) == "12345";
  }

  class AdminUsersPage {
    var users: seq<Member>
    var searchQuery: string
    var selected: Option<MemberDetail>
    var loading: bool
    var historyLoading: bool

    constructor ()
      ensures users == [] && searchQuery == "" && selected.None? && loading && !historyLoading
    {
      users := [];
      searchQuery := "";
      selected := None;
      loading := true;
      historyLoading := false;
    }

    /** fetchUsers: keeps only the customers of the reply; loading ends
        either way. */
    method FetchUsers(reply: Option<seq<Member>>)
      modifies this
      ensures !loading && users == (if reply.Some? then CustomersOnly(reply.value) else old(users))
      ensures forall i | 0 <= i < |users| :: users[i].role == CUSTOMER || users[i] in old(users)
      ensures selected == old(selected) && searchQuery == old(searchQuery) && historyLoading == old(historyLoading)
    {
      if reply.Some? {
        users := CustomersOnly(reply.value);
      }
      loading := false;
    }

    /** fetchUserHistory: the detail reply becomes the selection; the
        history spinner is off again afterwards either way. */
    method FetchUserHistory(reply: Option<MemberDetail>)
      modifies this
      ensures !historyLoading
      ensures selected == (if reply.Some? then reply else old(selected))
      ensures users == old(users) && loading == old(loading) && searchQuery == old(searchQuery)
    {
      historyLoading := true;
      if reply.Some? {
        selected := reply;
      }
      historyLoading := false;
    }

    method CloseDetails()
      modifies this
      ensures selected.None? && users == old(users) && historyLoading == old(historyLoading)
      ensures searchQuery == old(searchQuery) && loading == old(loading)
    {
      selected := None;
    }
  }
}
