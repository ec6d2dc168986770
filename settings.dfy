/** User settings store (src/store/features/settings/settingsSlice.ts): the reducer cases
    that update the settings state in place and mirror it into `localStorage`, and the
    `setUserAddress` thunk that builds the `userChanged` action.

    `localStorage` is a map from keys to strings; `getItem` is truthy only for a present,
    non-empty value. `JSON.stringify`/`JSON.parse`, the runtime configuration and the
    user repository are parameters. */
module Settings {
  import opened Wrappers
  import opened JsText

  const USER_LS_KEY: string := "store:settings/user"
  const USER_CURRENCY_LS_KEY: string := "store:settings/userCurrency"
  const USER_RENT_CALCULATION_LS_KEY: string := "store:settings/userRentCalculation"
  const LAST_VERSION_KEY: string := "lastVersionUsed"

  /** `Currency.USD` and `RentCalculation.Global`: fixed enum strings defined outside
      this model. */
  const CURRENCY_USD: string
  const RENT_CALCULATION_GLOBAL: string

  /** The user object. A stored user is whatever the JSON decodes to, and a user built
      by `setUserAddress` carries whatever fields the repository returned, so every
      field but `mainAddress` may be absent. */
  datatype User = User(id: Option<string>, mainAddress: string,
                       addressList: Option<seq<string>>, whitelistAttributeKeys: Option<seq<string>>)

  datatype State = State(user: Option<User>, userCurrency: string, rentCalculation: string,
                         isInitialized: bool, version: Option<string>, storage: map<string, string>)

  datatype Action =
    | InitializeSettings
    | UserChanged(payload: Option<User>)
    | UserCurrencyChanged(currency: string)
    | UserRentCalculationChanged(rentCalculation: string)

  /** The reducer throws (and the state is left as it was) only when the stored user is
      not valid JSON. */
  datatype ReducerError = StoredUserUnreadable

  /** `localStorage.getItem(key)` used as a condition: the value when it is truthy. */
  function StoredValue(storage: map<string, string>, key: string): (r: Option<string>)
    ensures r.Some? <==> key in storage && storage[key] != ""
    ensures r.Some? ==> r.value == storage[key]
  {
    if key in storage && storage[key] != "" then Some(storage[key]) else None
  }

  /** The initial state: no user, USD, the global rent calculation, not initialized. */
  function InitialState(storage: map<string, string>): (s: State)
    ensures s.user.None? && !s.isInitialized && s.version.None?
    ensures s.userCurrency == CURRENCY_USD && s.rentCalculation == RENT_CALCULATION_GLOBAL
    ensures s.storage == storage
  {
    State(None, CURRENCY_USD, RENT_CALCULATION_GLOBAL, false, None, storage)
  }

  /** The settings reducer. `encode` is `JSON.stringify`, `decode` is `JSON.parse`
      (`None` when it throws) and `configVersion` is `publicRuntimeConfig?.version`. */
  function Reduce(s: State, action: Action, encode: User -> string, decode: string -> Option<User>,
                  configVersion: Option<string>): Result<State, ReducerError>
  {
    match action
    case UserChanged(payload) =>
      Ok(s.(user := payload,
            storage := if payload.Some? then s.storage[USER_LS_KEY := encode(payload.value)]
                       else s.storage - {USER_LS_KEY}))
    case UserCurrencyChanged(c) =>
      Ok(s.(userCurrency := c, storage := s.storage[USER_CURRENCY_LS_KEY := c]))
    case UserRentCalculationChanged(rc) =>
      Ok(s.(rentCalculation := rc, storage := s.storage[USER_RENT_CALCULATION_LS_KEY := rc]))
    case InitializeSettings =>
      var storedUser := StoredValue(s.storage, USER_LS_KEY);
      if storedUser.Some? && decode(storedUser.value).None? then Err(StoredUserUnreadable)
      else
        var version := configVersion.GetOr("");
        Ok(State(if storedUser.Some? then decode(storedUser.value) else None,
                 StoredValue(s.storage, USER_CURRENCY_LS_KEY).GetOr(CURRENCY_USD),
                 StoredValue(s.storage, USER_RENT_CALCULATION_LS_KEY).GetOr(RENT_CALCULATION_GLOBAL),
                 true,
                 Some(version),
                 s.storage[LAST_VERSION_KEY := version]))
  }

  /** Each change action sets its own field and its own storage key and nothing else;
      a user change never fails, and removing the user only drops the user key. */
  lemma ChangesTouchOnlyTheirKey(s: State, action: Action, encode: User -> string,
                                 decode: string -> Option<User>, configVersion: Option<string>)
    requires !action.InitializeSettings?
    ensures var r := Reduce(s, action, encode, decode, configVersion);
            && r.Ok?
            && r.value.isInitialized == s.isInitialized && r.value.version == s.version
            && (forall k :: k != USER_LS_KEY && k != USER_CURRENCY_LS_KEY && k != USER_RENT_CALCULATION_LS_KEY ==>
                  (k in r.value.storage <==> k in s.storage) && (k in s.storage ==> r.value.storage[k] == s.storage[k]))
            && (action.UserChanged? ==>
                  r.value.user == action.payload && r.value.userCurrency == s.userCurrency &&
                  r.value.rentCalculation == s.rentCalculation &&
                  (action.payload.None? ==> USER_LS_KEY !in r.value.storage) &&
                  (action.payload.Some? ==> r.value.storage[USER_LS_KEY] == encode(action.payload.value)))
            && (action.UserCurrencyChanged? ==>
                  r.value.userCurrency == action.currency && r.value.user == s.user &&
                  r.value.rentCalculation == s.rentCalculation &&
                  r.value.storage == s.storage[USER_CURRENCY_LS_KEY := action.currency])
            && (action.UserRentCalculationChanged? ==>
                  r.value.rentCalculation == action.rentCalculation && r.value.user == s.user &&
                  r.value.userCurrency == s.userCurrency &&
                  r.value.storage == s.storage[USER_RENT_CALCULATION_LS_KEY := action.rentCalculation])
  {
  }

  /** Initialization reads back what is stored, falls back to USD and the global rent
      calculation when a key is absent or empty, records the version (or `''`) under
      `lastVersionUsed` and marks the settings initialized. */
  lemma InitializeSpec(s: State, encode: User -> string, decode: string -> Option<User>,
                       configVersion: Option<string>)
    ensures var r := Reduce(s, InitializeSettings, encode, decode, configVersion);
            && (r.Err? <==> USER_LS_KEY in s.storage && s.storage[USER_LS_KEY] != "" &&
                            decode(s.storage[USER_LS_KEY]).None?)
            && (r.Ok? ==>
                  && r.value.isInitialized
                  && r.value.version == Some(configVersion.GetOr(""))
                  && r.value.storage == s.storage[LAST_VERSION_KEY := configVersion.GetOr("")]
                  && (r.value.user.None? <==> USER_LS_KEY !in s.storage || s.storage[USER_LS_KEY] == "")
                  && (USER_LS_KEY in s.storage && s.storage[USER_LS_KEY] != "" ==>
                        r.value.user == decode(s.storage[USER_LS_KEY]))
                  && (r.value.userCurrency == CURRENCY_USD <==>
                        USER_CURRENCY_LS_KEY !in s.storage || s.storage[USER_CURRENCY_LS_KEY] in {"", CURRENCY_USD})
                  && (USER_CURRENCY_LS_KEY in s.storage && s.storage[USER_CURRENCY_LS_KEY] != "" ==>
                        r.value.userCurrency == s.storage[USER_CURRENCY_LS_KEY])
                  && (USER_RENT_CALCULATION_LS_KEY !in s.storage || s.storage[USER_RENT_CALCULATION_LS_KEY] == "" ==>
                        r.value.rentCalculation == RENT_CALCULATION_GLOBAL)
                  && (USER_RENT_CALCULATION_LS_KEY in s.storage && s.storage[USER_RENT_CALCULATION_LS_KEY] != "" ==>
                        r.value.rentCalculation == s.storage[USER_RENT_CALCULATION_LS_KEY]))
  {
  }

  /** Initializing again changes nothing: storage is only written under
      `lastVersionUsed`, which is never read back. */
  lemma InitializeIdempotent(s: State, encode: User -> string, decode: string -> Option<User>,
                             configVersion: Option<string>)
    requires Reduce(s, InitializeSettings, encode, decode, configVersion).Ok?
    ensures var once := Reduce(s, InitializeSettings, encode, decode, configVersion).value;
            Reduce(once, InitializeSettings, encode, decode, configVersion) == Ok(once)
  {
    var v := configVersion.GetOr("");
    var once := Reduce(s, InitializeSettings, encode, decode, configVersion).value;
    assert LAST_VERSION_KEY != USER_LS_KEY && LAST_VERSION_KEY != USER_CURRENCY_LS_KEY
        && LAST_VERSION_KEY != USER_RENT_CALCULATION_LS_KEY;
    assert StoredValue(once.storage, USER_LS_KEY) == StoredValue(s.storage, USER_LS_KEY);
    assert StoredValue(once.storage, USER_CURRENCY_LS_KEY) == StoredValue(s.storage, USER_CURRENCY_LS_KEY);
    assert StoredValue(once.storage, USER_RENT_CALCULATION_LS_KEY) == StoredValue(s.storage, USER_RENT_CALCULATION_LS_KEY);
    assert once.storage[LAST_VERSION_KEY := v] == once.storage;
  }

  /** A user, currency and rent calculation that were set are read back by the next
      initialization, provided the JSON encoding round-trips and the strings are not
      empty; a cleared user stays cleared. */
  lemma SettingsSurviveReload(s: State, u: Option<User>, currency: string, rentCalculation: string,
                              encode: User -> string, decode: string -> Option<User>,
                              configVersion: Option<string>)
    requires u.Some? ==> decode(encode(u.value)) == u && encode(u.value) != ""
    requires currency != "" && rentCalculation != ""
    ensures var s1 := Reduce(s, UserChanged(u), encode, decode, configVersion).value;
            var s2 := Reduce(s1, UserCurrencyChanged(currency), encode, decode, configVersion).value;
            var s3 := Reduce(s2, UserRentCalculationChanged(rentCalculation), encode, decode, configVersion).value;
            var r := Reduce(s3, InitializeSettings, encode, decode, configVersion);
            r.Ok? && r.value.user == u && r.value.userCurrency == currency &&
            r.value.rentCalculation == rentCalculation && r.value.isInitialized
  {
    var s1 := Reduce(s, UserChanged(u), encode, decode, configVersion).value;
    var s2 := Reduce(s1, UserCurrencyChanged(currency), encode, decode, configVersion).value;
    var s3 := Reduce(s2, UserRentCalculationChanged(rentCalculation), encode, decode, configVersion).value;
    assert USER_LS_KEY != USER_CURRENCY_LS_KEY && USER_LS_KEY != USER_RENT_CALCULATION_LS_KEY;
    assert USER_CURRENCY_LS_KEY != USER_RENT_CALCULATION_LS_KEY;
    assert StoredValue(s3.storage, USER_CURRENCY_LS_KEY) == Some(currency);
    assert StoredValue(s3.storage, USER_RENT_CALCULATION_LS_KEY) == Some(rentCalculation);
    if u.Some? {
      assert StoredValue(s3.storage, USER_LS_KEY) == Some(encode(u.value));
    } else {
      assert StoredValue(s3.storage, USER_LS_KEY) == None;
    }
  }

  // ---------------------------------------------------------------------------
  // The setUserAddress thunk

  /** What `UserRepository.getUserDetails` resolves to; a field it lacks is `None`. */
  datatype UserDetails = UserDetails(id: Option<string>, mainAddress: Option<string>,
                                     addressList: Option<seq<string>>, whitelistAttributeKeys: Option<seq<string>>)

  datatype ThunkOutcome = NoDispatch | Dispatch(payload: Option<User>)

  /** The outcome together with the number of repository calls made. */
  datatype ThunkRun = ThunkRun(outcome: ThunkOutcome, repositoryCalls: nat)

  /** `{ mainAddress: address.toLowerCase(), ...user }`: the details' own fields come
      last and win. */
  function UserPayload(address: string, details: UserDetails): User {
    User(details.id, details.mainAddress.GetOr(Lower(address)), details.addressList, details.whitelistAttributeKeys)
  }

  /** `setUserAddress(address)`. `getUserId` is `None` when the call throws and
      `getUserDetails` is `None` when it throws; a thrown error is logged and nothing
      is dispatched. */
  function SetUserAddress(address: string, getUserId: string -> Option<string>,
                          getUserDetails: string -> Option<UserDetails>): (run: ThunkRun)
    ensures address == "" <==> run == ThunkRun(Dispatch(None), 0)
    ensures run.repositoryCalls <= 2
    ensures address != "" && (getUserId(address).None? || getUserId(address) == Some("")) ==>
              run == ThunkRun(NoDispatch, 1)
    ensures address != "" && getUserId(address).Some? && getUserId(address).value != "" &&
            getUserDetails(getUserId(address).value).None? ==>
              run == ThunkRun(NoDispatch, 2)
    ensures address != "" ==> run.outcome != Dispatch(None)
    ensures run.outcome.Dispatch? && run.outcome.payload.Some? ==>
              && address != ""
              && getUserId(address).Some? && getUserId(address).value != ""
              && getUserDetails(getUserId(address).value).Some?
              && run.outcome.payload.value.id == getUserDetails(getUserId(address).value).value.id
  {
    if address == "" then ThunkRun(Dispatch(None), 0)
    else
      var userId := getUserId(address);
      if userId.None? || userId.value == "" then ThunkRun(NoDispatch, 1)
      else
        var details := getUserDetails(userId.value);
        if details.None? then ThunkRun(NoDispatch, 2)
        else ThunkRun(Dispatch(Some(UserPayload(address, details.value))), 2)
  }

  /** A user found for a non-empty address is dispatched with the repository's details;
      its `mainAddress` is the repository's when given, and the lower-cased address
      otherwise. */
  lemma SetUserAddressFound(address: string, getUserId: string -> Option<string>,
                            getUserDetails: string -> Option<UserDetails>)
    requires address != ""
    requires getUserId(address).Some? && getUserId(address).value != ""
    requires getUserDetails(getUserId(address).value).Some?
    ensures var d := getUserDetails(getUserId(address).value).value;
            var run := SetUserAddress(address, getUserId, getUserDetails);
            && run.outcome.Dispatch? && run.outcome.payload.Some?
            && run.outcome.payload.value.mainAddress == (if d.mainAddress.Some? then d.mainAddress.value else Lower(address))
            && run.outcome.payload.value.addressList == d.addressList
            && run.outcome.payload.value.whitelistAttributeKeys == d.whitelistAttributeKeys
  {
  }

  // ---------------------------------------------------------------------------
  // The store

  /** The settings slice state and the `localStorage` it writes, updated in place. */
  class SettingsStore {
    var user: Option<User>
    var userCurrency: string
    var rentCalculation: string
    var isInitialized: bool
    var version: Option<string>
    var storage: map<string, string>

    function Snapshot(): State
      reads this
    {
      State(user, userCurrency, rentCalculation, isInitialized, version, storage)
    }

    constructor (storage: map<string, string>)
      ensures Snapshot() == InitialState(storage)
    {
      user := None;
      userCurrency := CURRENCY_USD;
      rentCalculation := RENT_CALCULATION_GLOBAL;
      isInitialized := false;
      version := None;
      this.storage := storage;
    }

    /** The `userChanged` case. */
    method OnUserChanged(payload: Option<User>, encode: User -> string)
      modifies this
      ensures forall decode, configVersion ::
                Ok(Snapshot()) == Reduce(old(Snapshot()), UserChanged(payload), encode, decode, configVersion)
    {
      user := payload;
      if payload.Some? {
        storage := storage[USER_LS_KEY := encode(payload.value)];
      } else {
        storage := storage - {USER_LS_KEY};
      }
    }

    /** The `userCurrencyChanged` case. */
    method OnUserCurrencyChanged(currency: string)
      modifies this
      ensures forall encode, decode, configVersion ::
                Ok(Snapshot()) == Reduce(old(Snapshot()), UserCurrencyChanged(currency), encode, decode, configVersion)
    {
      userCurrency := currency;
      storage := storage[USER_CURRENCY_LS_KEY := currency];
    }

    /** The `userRentCalculationChanged` case. */
    method OnUserRentCalculationChanged(rc: string)
      modifies this
      ensures forall encode, decode, configVersion ::
                Ok(Snapshot()) == Reduce(old(Snapshot()), UserRentCalculationChanged(rc), encode, decode, configVersion)
    {
      rentCalculation := rc;
      storage := storage[USER_RENT_CALCULATION_LS_KEY := rc];
    }

    /** The `initializeSettings` case; when the stored user does not parse, the case
        throws before assigning anything. */
    method OnInitializeSettings(decode: string -> Option<User>, configVersion: Option<string>)
      returns (r: Result<(), ReducerError>)
      modifies this
      ensures forall encode :: var expected := Reduce(old(Snapshot()), InitializeSettings, encode, decode, configVersion);
              && (expected.Ok? ==> r.Ok? && Snapshot() == expected.value)
              && (expected.Err? ==> r == Err(expected.error) && Snapshot() == old(Snapshot()))
    {
      var storedUser := StoredValue(storage, USER_LS_KEY);
      var storedCurrency := StoredValue(storage, USER_CURRENCY_LS_KEY);
      var storedRentCalculation := StoredValue(storage, USER_RENT_CALCULATION_LS_KEY);
      if storedUser.Some? {
        var parsed := decode(storedUser.value);
        if parsed.None? {
          return Err(StoredUserUnreadable);
        }
        user := parsed;
      } else {
        user := None;
      }
      userCurrency := storedCurrency.GetOr(CURRENCY_USD);
      rentCalculation := storedRentCalculation.GetOr(RENT_CALCULATION_GLOBAL);
      var v := configVersion.GetOr("");
      storage := storage[LAST_VERSION_KEY := v];
      version := Some(v);
      isInitialized := true;
      r := Ok(());
    }

    /** Running `setUserAddress` and dispatching what it produces. */
    method SetUserAddressAndDispatch(address: string, getUserId: string -> Option<string>,
                                     getUserDetails: string -> Option<UserDetails>, encode: User -> string)
      modifies this
      ensures var run := SetUserAddress(address, getUserId, getUserDetails);
              && (run.outcome.NoDispatch? ==> Snapshot() == old(Snapshot()))
              && (run.outcome.Dispatch? ==> forall decode, configVersion ::
                    Ok(Snapshot()) == Reduce(old(Snapshot()), UserChanged(run.outcome.payload), encode, decode, configVersion))
    {
      var run := SetUserAddress(address, getUserId, getUserDetails);
      if run.outcome.Dispatch? {
        OnUserChanged(run.outcome.payload, encode);
      }
    }
  }
}
