/** What an account record may become: creation defaults, role arithmetic, role validation. */
module AccountRules {
  import opened LedgerTypes

  const MULTISIG_DEFAULT_THRESHOLD: nat := 1
  const MULTISIG_DEFAULT_TIMEOUT_IN_SECS: nat := 60 * 60 * 24
  const MULTISIG_DEFAULT_EXECUTE_AUTOMATICALLY := false
  const MULTISIG_MAXIMUM_TIMEOUT_IN_SECS: nat := 185 * 60 * 60 * 24

  function Min(a: nat, b: nat): nat { if a < b then a else b }

  function ClipTimeout(timeout: Option<nat>): Option<nat> {
    match timeout
    case None => None
    case Some(t) => Some(Min(t, MULTISIG_MAXIMUM_TIMEOUT_IN_SECS))
  }

  function RolesOf(roles: Roles, who: Address): set<Role> {
    if who in roles then roles[who] else {}
  }

  function AddRole(roles: Roles, who: Address, role: Role): Roles {
    roles[who := RolesOf(roles, who) + {role}]
  }

  function RemoveRole(roles: Roles, who: Address, role: Role): Roles {
    if who in roles then roles[who := roles[who] - {role}] else roles
  }

  // Adding an empty set of roles leaves no entry behind.
  function AddAllRoles(roles: Roles, added: Roles): Roles {
    map a | a in roles.Keys + added.Keys && (a in roles || added[a] != {}) :: RolesOf(roles, a) + RolesOf(added, a)
  }

  function RemoveAllRoles(roles: Roles, removed: Roles): Roles {
    map a | a in roles :: roles[a] - RolesOf(removed, a)
  }

  function AllowedRoles(f: Features): set<Role> {
    {Owner}
    + (if f.multisig.Some? then {CanMultisigSubmit, CanMultisigApprove} else {})
    + (if f.ledger then {CanLedgerTransact} else {})
    + (if f.tokens
       then {CanTokensCreate, CanTokensMint, CanTokensBurn, CanTokensUpdate, CanTokensAddExtendedInfo,
             CanTokensRemoveExtendedInfo}
       else {})
  }

  predicate ValidRoles(account: Account) {
    forall a :: a in account.roles ==> account.roles[a] <= AllowedRoles(account.features)
  }

  predicate Overlap(f: Features, g: Features) {
    (f.multisig.Some? && g.multisig.Some?) || (f.ledger && g.ledger) || (f.tokens && g.tokens)
  }

  function JoinFeatures(f: Features, g: Features): Features {
    Features(if g.multisig.Some? then g.multisig else f.multisig, f.ledger || g.ledger, f.tokens || g.tokens)
  }

  predicate NoFeatures(f: Features) {
    f.multisig.None? && !f.ledger && !f.tokens
  }

  // Whoever creates an account owns it.
  function Fresh(creator: Address, args: CreateArgs): Account {
    Account(args.description, AddRole(args.roles, creator, Owner), args.features, Unset)
  }

  predicate MayApprove(roles: set<Role>) {
    Owner in roles || CanMultisigApprove in roles || CanMultisigSubmit in roles
  }

  function Eligible(roles: Roles): set<Address> {
    set a | a in roles && MayApprove(roles[a])
  }

  // The default threshold counts every eligible address and takes the account itself away.
  function DefaultThreshold(roles: Roles): int { |Eligible(roles)| - 1 }

  function MultisigDefaults(arg: MultisigArg, roles: Roles): MultisigArg
    requires arg.threshold.None? ==> DefaultThreshold(roles) >= 0
  {
    MultisigArg(
      Some(if arg.threshold.Some? then arg.threshold.value else DefaultThreshold(roles)),
      Some(if arg.timeout.Some? then Min(MULTISIG_MAXIMUM_TIMEOUT_IN_SECS, arg.timeout.value)
           else MULTISIG_DEFAULT_TIMEOUT_IN_SECS),
      Some(arg.automatic.GetOr(MULTISIG_DEFAULT_EXECUTE_AUTOMATICALLY)))
  }

  /** The record stored for a new account: it owns itself and its multisig arguments are set. */
  function Finished(account: Account, id: Address): Account {
    var owned := account.(roles := AddRole(account.roles, id, Owner));
    ThresholdNeverUnderflows(account.roles, id);
    if owned.features.multisig.Some? then
      var arg := MultisigDefaults(owned.features.multisig.value, owned.roles);
      owned.(features := owned.features.(multisig := Some(arg)))
    else owned
  }

  /** Once the account owns itself the subtraction never underflows, and the default threshold
      is the number of eligible addresses other than the account. */
  lemma ThresholdNeverUnderflows(roles: Roles, id: Address)
    ensures var owned := AddRole(roles, id, Owner);
            DefaultThreshold(owned) >= 0 && DefaultThreshold(owned) == |Eligible(owned) - {id}|
  {
    var owned := AddRole(roles, id, Owner);
    assert Owner in owned[id];
    assert id in Eligible(owned);
  }

  /** A new account keeps the multisig arguments asked for, its timeout cut at the maximum; without a
      threshold it gets the number of addresses that exist and can approve, itself apart, without a
      timeout a day, and it executes automatically only if asked to. */
  lemma FinishedThreshold(account: Account, id: Address)
    requires account.features.multisig.Some?
    ensures var asked, f := account.features.multisig.value, Finished(account, id);
            && f.features == account.features.(multisig := f.features.multisig) && f.features.multisig.Some?
            && var arg := f.features.multisig.value;
            && arg.threshold
               == Some(if asked.threshold.Some? then asked.threshold.value else |Eligible(f.roles) - {id}|)
            && arg.timeout == Some(match asked.timeout
                                   case None => 86400
                                   case Some(t) => if t > 15984000 then 15984000 else t)
            && arg.automatic == Some(asked.automatic.Some? && asked.automatic.value)
  {
    ThresholdNeverUnderflows(account.roles, id);
  }

  // The outcome of a change: nothing to do, a new record together with the change as it is
  // logged, or a refusal.
  datatype ChangeOutcome = Unchanged | Changed(account: Account, logged: AccountChange) | Refused(error: Error)

  function ApplyDefaults(arg: MultisigArg, threshold: Option<nat>, timeout: Option<nat>, automatic: Option<bool>)
    : MultisigArg
  {
    MultisigArg(if threshold.Some? then threshold else arg.threshold,
                if timeout.Some? then timeout else arg.timeout,
                if automatic.Some? then automatic else arg.automatic)
  }

  /** What a logged change does to a record. */
  function ApplyChange(account: Account, change: AccountChange): Account {
    match change
    case Disable => account.(disabled := Flag(true))
    case Describe(d) => account.(description := Some(d))
    case AddRoles(added) => account.(roles := AddAllRoles(account.roles, added))
    case RemoveRoles(removed) => account.(roles := RemoveAllRoles(account.roles, removed))
    case AddFeatures(f, extra) =>
      account.(features := JoinFeatures(account.features, f), roles := AddAllRoles(account.roles, extra))
    case SetDefaults(threshold, timeout, automatic) =>
      if account.features.multisig.None? then account
      else
        account.(features := account.features.(multisig :=
          Some(ApplyDefaults(account.features.multisig.value, threshold, timeout, automatic))))
  }

  /** The outcome of asking for `change` on the record of the account at `id`. */
  function TryChange(id: Address, account: Account, change: AccountChange): ChangeOutcome {
    match change
    case RemoveRoles(removed) =>
      if Owner in RolesOf(removed, id) then Refused(AccountMustOwnItself)
      else Changed(ApplyChange(account, change), change)
    case AddFeatures(f, extra) =>
      if Overlap(account.features, f) then Refused(FeatureExists)
      else if !ValidRoles(ApplyChange(account, change)) then Refused(UnknownRole)
      else Changed(ApplyChange(account, change), change)
    case SetDefaults(threshold, timeout, automatic) =>
      if account.features.multisig.None? then Unchanged
      else
        var logged := SetDefaults(threshold, ClipTimeout(timeout), automatic);
        Changed(ApplyChange(account, logged), logged)
    case _ => Changed(ApplyChange(account, change), change)
  }

  /** Who holds which role after a change, address by address; only AddRoles, RemoveRoles and
      AddFeatures move roles, and no change takes the account's own ownership away. */
  lemma ChangeRoles(id: Address, account: Account, change: AccountChange, who: Address, role: Role)
    requires TryChange(id, account, change).Changed?
    ensures var after := TryChange(id, account, change).account;
            after.HasRole(who, role) <==>
              match change
              case AddRoles(added) => account.HasRole(who, role) || role in RolesOf(added, who)
              case RemoveRoles(removed) => account.HasRole(who, role) && role !in RolesOf(removed, who)
              case AddFeatures(_, extra) => account.HasRole(who, role) || role in RolesOf(extra, who)
              case _ => account.HasRole(who, role)
  {
    match change {
      case AddRoles(added) =>
      case RemoveRoles(removed) =>
      case _ =>
    }
  }

  lemma ChangeKeepsOwnership(id: Address, account: Account, change: AccountChange)
    requires TryChange(id, account, change).Changed? && account.HasRole(id, Owner)
    ensures TryChange(id, account, change).account.HasRole(id, Owner)
    ensures TryChange(id, account, change).account == ApplyChange(account, TryChange(id, account, change).logged)
  {
    ChangeRoles(id, account, change, id, Owner);
  }
}
