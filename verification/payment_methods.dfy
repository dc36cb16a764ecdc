/**
 * The saved payment methods list: choosing the default method and deleting a method, with the
 * invariant that ids are unique and at most one method is the default.
 */
module PaymentMethods {
  import opened Wrappers
  import opened Lists

  datatype MethodType = Card | Paypal | Wallet

  datatype PaymentMethod = PaymentMethod(
    id: string, kind: MethodType, name: string, last4: Option<string>, brand: Option<string>,
    icon: string, isDefault: bool)

  const CardIcon := "\U{1F4B3}"
  const WalletIcon := "\U{1F45B}"

  const InitialPaymentMethods: seq<PaymentMethod> := [
    PaymentMethod("1", Card, "Visa", Some("4242"), Some("visa"), CardIcon, true),
    PaymentMethod("2", Card, "Mastercard", Some("8888"), Some("mastercard"), CardIcon, false),
    PaymentMethod("3", Wallet, "BluRide Wallet", None, None, WalletIcon, false)
  ]

  /** How many methods are marked default. */
  function CountDefaults(ms: seq<PaymentMethod>): nat
    decreases |ms|
  {
    if ms == [] then 0 else (if ms[0].isDefault then 1 else 0) + CountDefaults(ms[1..])
  }

  /** How many methods carry the id. */
  function CountWithId(ms: seq<PaymentMethod>, id: string): nat
    decreases |ms|
  {
    if ms == [] then 0 else (if ms[0].id == id then 1 else 0) + CountWithId(ms[1..], id)
  }

  predicate HasId(ms: seq<PaymentMethod>, id: string) {
    exists m :: m in ms && m.id == id
  }

  /** No two methods share an id. */
  predicate UniqueIds(ms: seq<PaymentMethod>)
    decreases |ms|
  {
    ms == [] || ((forall m :: m in ms[1..] ==> m.id != ms[0].id) && UniqueIds(ms[1..]))
  }

  /** `handleSetDefault`'s map: the default flag is set exactly on the methods with the id; nothing else changes. */
  function WithDefault(ms: seq<PaymentMethod>, id: string): (r: seq<PaymentMethod>)
    ensures |r| == |ms|
    ensures forall i :: 0 <= i < |r| ==> r[i].isDefault == (ms[i].id == id)
    ensures forall i :: 0 <= i < |r| ==> r[i].(isDefault := ms[i].isDefault) == ms[i]
    decreases |ms|
  {
    if ms == [] then [] else [ms[0].(isDefault := ms[0].id == id)] + WithDefault(ms[1..], id)
  }

  /** Setting the same default twice is setting it once. */
  lemma SetDefaultIdempotent(ms: seq<PaymentMethod>, id: string)
    ensures WithDefault(WithDefault(ms, id), id) == WithDefault(ms, id)
  {
    var once := WithDefault(ms, id);
    var twice := WithDefault(once, id);
    assert forall i :: 0 <= i < |ms| ==> twice[i] == once[i];
  }

  /** An absent id leaves no method marked default. */
  lemma SetDefaultAbsentId(ms: seq<PaymentMethod>, id: string)
    requires !HasId(ms, id)
    ensures forall m :: m in WithDefault(ms, id) ==> !m.isDefault
  {
    var r := WithDefault(ms, id);
    forall m | m in r ensures !m.isDefault {
      var i :| 0 <= i < |r| && r[i] == m;
      assert ms[i] in ms;
    }
  }

  /** After `handleSetDefault` the number of defaults is the number of methods with that id. */
  lemma {:induction false} SetDefaultCount(ms: seq<PaymentMethod>, id: string)
    ensures CountDefaults(WithDefault(ms, id)) == CountWithId(ms, id)
    decreases |ms|
  {
    if ms != [] {
      var r := WithDefault(ms, id);
      assert r[1..] == WithDefault(ms[1..], id);
      SetDefaultCount(ms[1..], id);
    }
  }

  /** With unique ids an id is carried by one method when present and by none otherwise. */
  lemma {:induction false} UniqueIdCount(ms: seq<PaymentMethod>, id: string)
    requires UniqueIds(ms)
    ensures CountWithId(ms, id) == if HasId(ms, id) then 1 else 0
    decreases |ms|
  {
    if ms != [] {
      UniqueIdCount(ms[1..], id);
      if ms[0].id == id {
        assert !HasId(ms[1..], id);
        assert ms[0] in ms;
      } else if HasId(ms, id) {
        var m :| m in ms && m.id == id;
        assert m in ms[1..];
      } else {
        assert !HasId(ms[1..], id) by {
          forall m | m in ms[1..] ensures m.id != id {
            assert m in ms;
          }
        }
      }
    }
  }

  function OtherMethod(id: string): PaymentMethod -> bool {
    (m: PaymentMethod) => m.id != id
  }

  /** `handleDelete`'s filter: the methods without the id, in their order, untouched. */
  function WithoutMethod(ms: seq<PaymentMethod>, id: string): (r: seq<PaymentMethod>)
    ensures forall m :: m in r <==> m in ms && m.id != id
    ensures Subsequence(r, ms)
    ensures |r| == CountWhere(ms, OtherMethod(id))
  {
    FilterIsSubsequence(ms, OtherMethod(id));
    FilterLength(ms, OtherMethod(id));
    Filter(ms, OtherMethod(id))
  }

  /** Deleting never adds a default: the remaining methods keep their flags. */
  lemma {:induction false} DeleteCount(ms: seq<PaymentMethod>, keep: PaymentMethod -> bool)
    ensures CountDefaults(Filter(ms, keep)) <= CountDefaults(ms)
    ensures (forall m :: m in ms && m.isDefault ==> !keep(m)) ==> CountDefaults(Filter(ms, keep)) == 0
    decreases |ms|
  {
    if ms != [] {
      DeleteCount(ms[1..], keep);
      if keep(ms[0]) {
        assert Filter(ms, keep) == [ms[0]] + Filter(ms[1..], keep);
        assert ([ms[0]] + Filter(ms[1..], keep))[1..] == Filter(ms[1..], keep);
      }
      if forall m :: m in ms && m.isDefault ==> !keep(m) {
        assert forall m :: m in ms[1..] ==> m in ms;
      }
    }
  }

  /** Deleting the default method leaves no default: none is reassigned. */
  lemma DeleteDefaultLeavesNone(ms: seq<PaymentMethod>, id: string)
    requires forall m :: m in ms && m.isDefault ==> m.id == id
    ensures CountDefaults(WithoutMethod(ms, id)) == 0
  {
    DeleteCount(ms, OtherMethod(id));
  }

  /** A filter keeps ids unique. */
  lemma {:induction false} FilterKeepsUniqueIds(ms: seq<PaymentMethod>, keep: PaymentMethod -> bool)
    requires UniqueIds(ms)
    ensures UniqueIds(Filter(ms, keep))
    decreases |ms|
  {
    if ms != [] {
      FilterKeepsUniqueIds(ms[1..], keep);
      if keep(ms[0]) {
        var r := Filter(ms, keep);
        assert r[0] == ms[0] && r[1..] == Filter(ms[1..], keep);
      }
    }
  }

  /** Setting the default keeps ids unique. */
  lemma {:induction false} SetDefaultKeepsUniqueIds(ms: seq<PaymentMethod>, id: string)
    requires UniqueIds(ms)
    ensures UniqueIds(WithDefault(ms, id))
    decreases |ms|
  {
    if ms != [] {
      var r := WithDefault(ms, id);
      assert r[1..] == WithDefault(ms[1..], id);
      SetDefaultKeepsUniqueIds(ms[1..], id);
      forall m | m in r[1..] ensures m.id != r[0].id {
        var i :| 0 <= i < |r[1..]| && r[1..][i] == m;
        assert ms[1..][i] in ms[1..];
      }
    }
  }

  /** The list the page starts with: unique ids, exactly one default. */
  lemma InitialMethodsValid()
    ensures UniqueIds(InitialPaymentMethods) && CountDefaults(InitialPaymentMethods) == 1
  {
    var ms := InitialPaymentMethods;
    var tail := ms[1..];
    assert tail == [ms[1], ms[2]] && tail[1..] == [ms[2]] && tail[1..][1..] == [];
    assert UniqueIds(tail[1..]);
    assert UniqueIds(tail);
    assert CountDefaults(tail[1..]) == 0;
    assert CountDefaults(tail) == 0;
  }

  /** The page's state: the list, and the id whose delete confirmation is open. */
  class PaymentPage {
    var paymentMethods: seq<PaymentMethod>
    var showDeleteModal: Option<string>

    ghost predicate Valid()
      reads this
    {
      UniqueIds(paymentMethods) && CountDefaults(paymentMethods) <= 1
    }

    constructor ()
      ensures Valid() && paymentMethods == InitialPaymentMethods && showDeleteModal == None
    {
      paymentMethods := InitialPaymentMethods;
      showDeleteModal := None;
      InitialMethodsValid();
    }

    /** `handleSetDefault`: the method with the id becomes the only default, if there is one. */
    method HandleSetDefault(id: string)
      requires Valid()
      modifies this`paymentMethods
      ensures Valid()
      ensures paymentMethods == WithDefault(old(paymentMethods), id)
      ensures CountDefaults(paymentMethods) == if HasId(old(paymentMethods), id) then 1 else 0
    {
      SetDefaultCount(paymentMethods, id);
      UniqueIdCount(paymentMethods, id);
      SetDefaultKeepsUniqueIds(paymentMethods, id);
      paymentMethods := WithDefault(paymentMethods, id);
    }

    /** `handleDelete`: removes the method with the id and closes the confirmation. */
    method HandleDelete(id: string)
      requires Valid()
      modifies this
      ensures Valid()
      ensures paymentMethods == WithoutMethod(old(paymentMethods), id) && showDeleteModal == None
    {
      DeleteCount(paymentMethods, OtherMethod(id));
      FilterKeepsUniqueIds(paymentMethods, OtherMethod(id));
      paymentMethods := WithoutMethod(paymentMethods, id);
      showDeleteModal := None;
    }

    /** The delete button opens the confirmation for its method. */
    method AskDelete(id: string)
      modifies this`showDeleteModal
      ensures showDeleteModal == Some(id)
    {
      showDeleteModal := Some(id);
    }

    /** Cancel or the backdrop closes the confirmation. */
    method CancelDelete()
      modifies this`showDeleteModal
      ensures showDeleteModal == None
    {
      showDeleteModal := None;
    }
  }
}
