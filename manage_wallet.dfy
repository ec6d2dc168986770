/** Wallet management dialog (src/components/modals/ManageWalletModal.tsx): the list of
    custom addresses, the list of hidden addresses, and the "add address" form with its
    validation. React state setters become field updates of two classes; ethers'
    `isAddress` is a parameter. */
module ManageWallet {
  import opened Wrappers
  import opened JsText

  // ---------------------------------------------------------------------------
  // List operations

  /** `xs.filter((item) => item !== a)` */
  function RemoveAll(xs: seq<string>, a: string): seq<string>
    decreases |xs|
  {
    if xs == [] then []
    else if xs[0] == a then RemoveAll(xs[1..], a)
    else [xs[0]] + RemoveAll(xs[1..], a)
  }

  /** Removal drops every entry equal to `a` and keeps every copy of the others, in
      order. */
  lemma {:induction false} RemoveAllSpec(xs: seq<string>, a: string)
    ensures forall x :: x in RemoveAll(xs, a) <==> x in xs && x != a
    ensures forall x :: multiset(RemoveAll(xs, a))[x] == if x == a then 0 else multiset(xs)[x]
    ensures IsSubsequence(RemoveAll(xs, a), xs)
    ensures a !in xs ==> RemoveAll(xs, a) == xs
    decreases |xs|
  {
    if xs != [] {
      RemoveAllSpec(xs[1..], a);
      assert xs == [xs[0]] + xs[1..];
      assert multiset(xs) == multiset([xs[0]]) + multiset(xs[1..]);
    }
  }

  lemma {:induction false} RemoveAllAppend(xs: seq<string>, ys: seq<string>, a: string)
    ensures RemoveAll(xs + ys, a) == RemoveAll(xs, a) + RemoveAll(ys, a)
    decreases |xs|
  {
    if xs != [] {
      assert (xs + ys)[0] == xs[0] && (xs + ys)[1..] == xs[1..] + ys;
      RemoveAllAppend(xs[1..], ys, a);
    } else {
      assert xs + ys == ys;
    }
  }

  /** The hidden list after `toggleAddressVisibility(a)`. */
  function Toggle(hidden: seq<string>, a: string): seq<string> {
    if a in hidden then RemoveAll(hidden, a) else hidden + [a]
  }

  /** Toggling flips whether `a` is hidden and leaves every other address as it was:
      the same copies, in the same order. */
  lemma ToggleSpec(hidden: seq<string>, a: string)
    ensures a in Toggle(hidden, a) <==> a !in hidden
    ensures forall x :: x != a ==> (x in Toggle(hidden, a) <==> x in hidden)
    ensures forall x :: x != a ==> multiset(Toggle(hidden, a))[x] == multiset(hidden)[x]
    ensures a in hidden ==> IsSubsequence(Toggle(hidden, a), hidden) && a !in Toggle(hidden, a)
    ensures a !in hidden ==> Toggle(hidden, a) == hidden + [a]
  {
    RemoveAllSpec(hidden, a);
  }

  /** Hiding an address and showing it again gives back the hidden list exactly. */
  lemma ToggleTwiceRestores(hidden: seq<string>, a: string)
    requires a !in hidden
    ensures Toggle(Toggle(hidden, a), a) == hidden
  {
    RemoveAllAppend(hidden, [a], a);
    RemoveAllSpec(hidden, a);
    assert RemoveAll([a], a) == [];
  }

  // ---------------------------------------------------------------------------
  // The list state of the dialog

  class WalletLists {
    /** `user?.addressList ?? []`: the account's own addresses, never edited here. */
    var accountAddresses: seq<string>
    var customAddresses: seq<string>
    var hiddenAddresses: seq<string>

    constructor (accountAddresses: seq<string>, customAddressList: Option<seq<string>>, hiddenAddressList: Option<seq<string>>)
      ensures this.accountAddresses == accountAddresses
      ensures customAddresses == customAddressList.GetOr([])
      ensures hiddenAddresses == hiddenAddressList.GetOr([])
    {
      this.accountAddresses := accountAddresses;
      customAddresses := customAddressList.GetOr([]);
      hiddenAddresses := hiddenAddressList.GetOr([]);
    }

    /** The addresses the add-form checks against: account addresses, then custom ones. */
    function Addresses(): seq<string>
      reads this
    {
      accountAddresses + customAddresses
    }

    /** `addAddress(address)`: one entry appended at the end. */
    method AddAddress(address: string)
      modifies this
      ensures customAddresses == old(customAddresses) + [address]
      ensures hiddenAddresses == old(hiddenAddresses) && accountAddresses == old(accountAddresses)
    {
      customAddresses := customAddresses + [address];
    }

    /** `removeAddress(address)`: every exactly-equal entry dropped, the rest in order. */
    method RemoveAddress(address: string)
      modifies this
      ensures customAddresses == RemoveAll(old(customAddresses), address)
      ensures hiddenAddresses == old(hiddenAddresses) && accountAddresses == old(accountAddresses)
    {
      customAddresses := RemoveAll(customAddresses, address);
    }

    /** `toggleAddressVisibility(address)` */
    method ToggleAddressVisibility(address: string)
      modifies this
      ensures hiddenAddresses == Toggle(old(hiddenAddresses), address)
      ensures customAddresses == old(customAddresses) && accountAddresses == old(accountAddresses)
    {
      if address in hiddenAddresses {
        hiddenAddresses := RemoveAll(hiddenAddresses, address);
      } else {
        hiddenAddresses := hiddenAddresses + [address];
      }
    }

    /** Submitting the add-form with the dialog's addresses and, when the form accepts,
        adding the address it hands over. */
    method SubmitAddForm(form: AddressForm, isAddress: string -> bool)
      modifies this, form
      ensures var err := CurrentError(old(form.address), old(Addresses()), isAddress);
              && (err.Some? ==> customAddresses == old(customAddresses) && form.address == old(form.address) && form.isDirty
                                && form.isOpen == old(form.isOpen))
              && (err.None? ==> customAddresses == old(customAddresses) + [old(form.address)] && form.address == ""
                                && !form.isDirty && !form.isOpen)
      ensures hiddenAddresses == old(hiddenAddresses) && accountAddresses == old(accountAddresses)
    {
      var submitted := form.Submit(Addresses(), isAddress);
      if submitted.Some? {
        AddAddress(submitted.value);
      }
    }
  }

  // ---------------------------------------------------------------------------
  // The add-address form

  datatype FormError = InvalidAddress | AddressAlreadyAdded

  /** `addresses.map(toLowerCase).includes(address.toLowerCase())` */
  predicate AlreadyAdded(address: string, addresses: seq<string>) {
    Lower(address) in seq(|addresses|, i requires 0 <= i < |addresses| => Lower(addresses[i]))
  }

  /** The duplicate check ignores case: it holds exactly when some listed address
      equals `address` once both are lower-cased. */
  lemma AlreadyAddedSpec(address: string, addresses: seq<string>)
    ensures AlreadyAdded(address, addresses) <==> exists i :: 0 <= i < |addresses| && Lower(addresses[i]) == Lower(address)
  {
    var lowered := seq(|addresses|, i requires 0 <= i < |addresses| => Lower(addresses[i]));
    if AlreadyAdded(address, addresses) {
      var i :| 0 <= i < |lowered| && lowered[i] == Lower(address);
      assert Lower(addresses[i]) == Lower(address);
    } else {
      forall i | 0 <= i < |addresses|
        ensures Lower(addresses[i]) != Lower(address)
      {
        assert lowered[i] == Lower(addresses[i]);
      }
    }
  }

  /** `currentError`: an invalid address is reported before a duplicate one. */
  function CurrentError(address: string, addresses: seq<string>, isAddress: string -> bool): (e: Option<FormError>)
    ensures !isAddress(address) <==> e == Some(InvalidAddress)
    ensures e == Some(AddressAlreadyAdded) <==> isAddress(address) && AlreadyAdded(address, addresses)
    ensures e.None? <==> isAddress(address) && !AlreadyAdded(address, addresses)
  {
    if !isAddress(address) then Some(InvalidAddress)
    else if AlreadyAdded(address, addresses) then Some(AddressAlreadyAdded)
    else None
  }

  class AddressForm {
    var address: string
    var isDirty: bool
    var isOpen: bool

    constructor ()
      ensures address == "" && !isDirty && !isOpen
    {
      address := "";
      isDirty := false;
      isOpen := false;
    }

    /** The error shown under the input: only once the form is dirty. */
    function DisplayedError(addresses: seq<string>, isAddress: string -> bool): (e: Option<FormError>)
      reads this
      ensures !isDirty ==> e.None?
      ensures isDirty ==> e == CurrentError(address, addresses, isAddress)
    {
      if isDirty then CurrentError(address, addresses, isAddress) else None
    }

    /** The input's `onChange`. */
    method SetAddress(value: string)
      modifies this
      ensures address == value && isDirty == old(isDirty) && isOpen == old(isOpen)
    {
      address := value;
    }

    method Open()
      modifies this
      ensures isOpen && address == old(address) && isDirty == old(isDirty)
    {
      isOpen := true;
    }

    /** `resetAndClose()` */
    method ResetAndClose()
      modifies this
      ensures address == "" && !isDirty && !isOpen
    {
      address := "";
      isDirty := false;
      isOpen := false;
    }

    /** `submit()`: with an error, only mark the form dirty; otherwise hand the address
        to `onChange` (returned here, exactly once) and reset the form. */
    method Submit(addresses: seq<string>, isAddress: string -> bool) returns (submitted: Option<string>)
      modifies this
      ensures var err := CurrentError(old(address), addresses, isAddress);
              && (err.Some? ==> submitted.None? && address == old(address) && isDirty && isOpen == old(isOpen))
              && (err.None? ==> submitted == Some(old(address)) && address == "" && !isDirty && !isOpen)
    {
      if CurrentError(address, addresses, isAddress).Some? {
        isDirty := true;
        return None;
      }
      submitted := Some(address);
      ResetAndClose();
    }
  }

  /** An address the form accepts is a valid address not yet present in any case. */
  lemma AcceptedAddressIsNew(address: string, addresses: seq<string>, isAddress: string -> bool)
    requires CurrentError(address, addresses, isAddress).None?
    ensures isAddress(address)
    ensures forall i :: 0 <= i < |addresses| ==> Lower(addresses[i]) != Lower(address)
  {
    AlreadyAddedSpec(address, addresses);
  }
}
