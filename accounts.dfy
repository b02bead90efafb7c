/** The account services: the user flows of src/apps/profiles/services/user.py (password
    change, verified registration, reset codes), the vendor flows of
    src/apps/vendors/services.py (verification codes, two-factor toggle, phone and e-mail
    change by code, password change) and the account manager of
    src/apps/profiles/models/managers.py. Password hashing and checking, password
    validation, the TOTP check and the random draws are parameters; JWT tokens are
    represented by the id of the account they are issued for. */
module Accounts {
  import opened Common

  // ---------------------------------------------------------------------------
  // Random codes

  const Digits := "0123456789"

  /** The length `generate_verification_code` and the code flows use. */
  const CodeLength := 5

  /** The position of `c` in `allowed`. */
  function IndexIn(c: char, allowed: string): (k: nat)
    requires c in allowed
    ensures k < |allowed| && allowed[k] == c
  {
    if allowed[0] == c then 0 else 1 + IndexIn(c, allowed[1..])
  }

  /** `get_random_string(len(picks), allowed)`: every pick selects one allowed character. */
  function RandomString(picks: seq<nat>, allowed: string): (s: string)
    requires |allowed| > 0
    ensures |s| == |picks|
    ensures forall i :: 0 <= i < |s| ==> s[i] in allowed
  {
    seq(|picks|, i requires 0 <= i < |picks| => allowed[picks[i] % |allowed|])
  }

  /** Every string over the allowed characters is one of the possible draws. */
  lemma RandomStringCovers(s: string, allowed: string)
    requires |allowed| > 0
    requires forall i :: 0 <= i < |s| ==> s[i] in allowed
    ensures exists picks: seq<nat> :: RandomString(picks, allowed) == s
  {
    var picks := seq(|s|, i requires 0 <= i < |s| => IndexIn(s[i], allowed));
    var r := RandomString(picks, allowed);
    forall i | 0 <= i < |s| ensures r[i] == s[i] {
      var k := IndexIn(s[i], allowed);
      assert picks[i] == k && k % |allowed| == k;
    }
    assert r == s;
  }

  predicate IsDigitString(s: string) {
    forall i :: 0 <= i < |s| ==> '0' <= s[i] <= '9'
  }

  /** `generate_verification_code(length)` with `length == |picks|`. */
  function GenerateVerificationCode(picks: seq<nat>): (code: string)
    ensures |code| == |picks| && IsDigitString(code)
  {
    var s := RandomString(picks, Digits);
    assert forall i :: 0 <= i < |s| ==> '0' <= s[i] <= '9' by {
      forall i | 0 <= i < |s| ensures '0' <= s[i] <= '9' {
        assert s[i] in Digits;
      }
    }
    s
  }

  /** Every digit string of the requested length can be drawn. */
  lemma EveryDigitCodeCanBeDrawn(code: string)
    requires IsDigitString(code)
    ensures exists picks: seq<nat> :: |picks| == |code| && GenerateVerificationCode(picks) == code
  {
    forall i | 0 <= i < |code| ensures code[i] in Digits {
      var c := code[i];
      assert c == Digits[c as int - '0' as int];
    }
    RandomStringCovers(code, Digits);
    var picks: seq<nat> :| RandomString(picks, Digits) == code;
    assert GenerateVerificationCode(picks) == code;
  }

  // ---------------------------------------------------------------------------
  // Rows

  /** A `User` or `Vendor` row. `currency` is a `User` column, `twofa` and `secretKey` are
      `Vendor` columns; the other table leaves them at their defaults. `password` holds
      whatever the manager was given. */
  datatype Account = Account(
    id: Id, email: Email, firstName: string, lastName: string, phone: Option<string>, password: string,
    isActive: bool, isStaff: bool, isSuperuser: bool, resetCode: Option<Id>, currency: Option<Id>,
    twofa: bool, secretKey: Option<string>)

  /** A registration waiting for its e-mail code; `password` is already hashed. */
  datatype TemporaryUser = TemporaryUser(
    id: Id, email: Email, firstName: string, lastName: string, phone: Option<string>, password: string, code: string)

  datatype ResetCode = ResetCode(id: Id, code: string, createdAt: Time)

  datatype Currency = Currency(id: Id, title: string, price: int)

  /** A verification e-mail, sent at once or through its task. */
  datatype Mail = Mail(to: Email, code: string)

  /** The manager a flow is given: `User.objects` or `Vendor.objects`. */
  datatype AccountKind = UserAccounts | VendorAccounts

  /** The fields `create_user` receives besides the e-mail. */
  datatype Profile = Profile(firstName: string, lastName: string, phone: Option<string>, password: string)

  /** What a flow returns: its value, the error text of its `(None, error)` pair, or an
      exception that escapes it. */
  datatype Outcome<T> = Success(value: T) | Declined(message: string) | Failed(fault: Fault)

  /** The contact detail a vendor changes by code. */
  datatype Contact = Phone(number: string) | Address(email: Email)

  /** What `twofactor_verify` returns: the new `twofa` state, `None` for a wrong code, or the
      `(None, 'User type does not exist')` pair. */
  datatype TwoFactorReply = Switched(on: bool) | WrongCode | NoSuchVendor(message: string) | Crashed(fault: Fault)

  const Succeeded := "success"
  const PasswordNotCorrect := "Password is not correct"
  const PasswordNotMatch := "Password is not match"
  const PasswordsNotMatch := "passwords are not match"
  const InvalidCode := "Invalid code"
  const InvalidCodeDetail := "Invalid code!"
  const CodeExpiredDetail := "Reset code has expired. Please request a new one"
  const OldPasswordField := "old_password"
  const WrongOldPassword := "Неверный старый пароль."
  const NoVendorText := "User type does not exist"
  const NoTotpSecret := "TypeError: the vendor has no TOTP secret"
  const DefaultCurrency := "KGS"
  const EmailRequired := "ValueError: The given email must be set"
  const StaffRequired := "ValueError: Superuser must have is_staff=True."
  const SuperuserRequired := "ValueError: Superuser must have is_superuser=True."
  const EmailTaken := "IntegrityError: UNIQUE constraint failed: email"
  const NoResetCode := "AttributeError: 'NoneType' object has no attribute 'code'"
  const NoCodeDate := "AttributeError: 'NoneType' object has no attribute 'created_at'"
  const SentinelNotAVendor := "AttributeError: 'dict' object has no attribute 'reset_code'"

  /** `timedelta(minutes=3)` of the change-by-code flows. */
  const ChangeCodeLifetime := 3 * Minute

  // ---------------------------------------------------------------------------
  // The checks of VendorService

  /** `check_time`: 408 when more than `limit` has elapsed since the code was made. */
  function CheckTime(now: Time, codeDate: Time, limit: int): (r: Option<Fault>)
    ensures r.Some? <==> now - codeDate > limit
    ensures r.Some? ==> r.value == Raised(408, Text(CodeExpiredDetail))
  {
    if now - codeDate > limit then Some(Raised(408, Text(CodeExpiredDetail))) else None
  }

  /** `check_code`: 403 when the codes differ. */
  function CheckCode(received: string, sent: string): (r: Option<Fault>)
    ensures r.Some? <==> received != sent
    ensures r.Some? ==> r.value == Raised(403, Text(InvalidCodeDetail))
  {
    if sent != received then Some(Raised(403, Text(InvalidCodeDetail))) else None
  }

  /** The change flows run `check_time` before `check_code`. */
  function CheckChangeCode(now: Time, rc: ResetCode, sent: string): (r: Option<Fault>)
    ensures r.None? <==> now - rc.createdAt <= ChangeCodeLifetime && rc.code == sent
    ensures now - rc.createdAt > ChangeCodeLifetime ==> r == Some(Raised(408, Text(CodeExpiredDetail)))
    ensures now - rc.createdAt <= ChangeCodeLifetime && rc.code != sent ==> r == Some(Raised(403, Text(InvalidCodeDetail)))
  {
    var late := CheckTime(now, rc.createdAt, ChangeCodeLifetime);
    if late.Some? then late else CheckCode(rc.code, sent)
  }

  /** The body the client gets for a wrong old password: the message is a dictionary keyed by
      the `old_password` field, under code 400. */
  lemma WrongOldPasswordBody()
    ensures var e := UnifiedErrorResponse(Some(Fields(map[OldPasswordField := WrongOldPassword])), Some(IntCode(400)));
      && e.httpStatus == 400 && e.body.code == IntCode(400)
      && e.body.message.Fields? && e.body.message.m.Keys == {OldPasswordField}
      && e.body.message.m[OldPasswordField] == WrongOldPassword
  {
  }

  /** A code exactly three minutes old is still accepted; one second later it is not. */
  lemma ThreeMinutesIsTheLimit(rc: ResetCode)
    ensures CheckChangeCode(rc.createdAt + 3 * Minute, rc, rc.code).None?
    ensures CheckChangeCode(rc.createdAt + 3 * Minute + 1, rc, rc.code) == Some(Raised(408, Text(CodeExpiredDetail)))
  {
  }

  // ---------------------------------------------------------------------------
  // Table integrity

  /** Keys are the rows' ids and below the next id, every reset code pointed at exists, and
      no two accounts of a table share an e-mail. */
  predicate TableValid(m: map<Id, Account>, codes: map<Id, ResetCode>, bound: Id) {
    && (forall id :: id in m ==> m[id].id == id && id < bound)
    && (forall id :: id in m && m[id].resetCode.Some? ==> m[id].resetCode.value in codes)
    && (forall a, b :: a in m && b in m && m[a].email == m[b].email ==> a == b)
  }

  /** No account of `m` other than `except` has `email`. */
  predicate EmailFree(m: map<Id, Account>, email: Email, except: Option<Id>) {
    forall id :: id in m && Some(id) != except ==> m[id].email != email
  }

  /** No traveller shares an e-mail with a vendor. */
  predicate EmailsDisjoint(users: map<Id, Account>, vendors: map<Id, Account>) {
    forall u, v :: u in users && v in vendors ==> users[u].email != vendors[v].email
  }

  /** Both tables are valid and their e-mails are unique together: `email` is the unique
      column of `CustomUser`, the parent table of both `User` and `Vendor`. */
  predicate StoreValid(users: map<Id, Account>, vendors: map<Id, Account>, codes: map<Id, ResetCode>, bound: Id) {
    TableValid(users, codes, bound) && TableValid(vendors, codes, bound) && EmailsDisjoint(users, vendors)
  }

  /** Saving `email` on account `owner` of table `kind` (None for a new row) keeps the column
      unique: no other account of either table has it. */
  predicate EmailUnused(users: map<Id, Account>, vendors: map<Id, Account>, kind: AccountKind, email: Email, owner: Option<Id>) {
    if kind.UserAccounts? then EmailFree(users, email, owner) && EmailFree(vendors, email, None)
    else EmailFree(users, email, None) && EmailFree(vendors, email, owner)
  }

  /** `on_delete=SET_NULL` of `reset_code`: the accounts that pointed at code `c` now point
      at nothing, and every other account is as it was. */
  function Cleared(m: map<Id, Account>, c: Id): (r: map<Id, Account>)
    ensures r.Keys == m.Keys
    ensures forall id :: id in m && m[id].resetCode != Some(c) ==> r[id] == m[id]
    ensures forall id :: id in m && m[id].resetCode == Some(c) ==> r[id] == m[id].(resetCode := None)
  {
    map id | id in m :: if m[id].resetCode == Some(c) then m[id].(resetCode := None) else m[id]
  }

  /** The table after the delete of the code an account held, if it held one. */
  function ClearedHeld(m: map<Id, Account>, held: Option<Id>): (r: map<Id, Account>)
    ensures r.Keys == m.Keys
    ensures held.None? ==> r == m
  {
    if held.Some? then Cleared(m, held.value) else m
  }

  /** The table after `save()` of account `token` pointing at code `c`, all else as it was. */
  function Repointed(m: map<Id, Account>, token: Id, c: Id): (r: map<Id, Account>)
    requires token in m
    ensures r.Keys == m.Keys && r[token].resetCode == Some(c)
  {
    m[token := m[token].(resetCode := Some(c))]
  }

  /** Deleting reset code `c` and clearing its holders in both tables keeps the store valid. */
  lemma ClearedValid(users: map<Id, Account>, vendors: map<Id, Account>, codes: map<Id, ResetCode>, bound: Id, c: Id)
    requires StoreValid(users, vendors, codes, bound)
    ensures StoreValid(Cleared(users, c), Cleared(vendors, c), codes - {c}, bound)
  {
    var ru, rv := Cleared(users, c), Cleared(vendors, c);
    assert forall id :: id in ru ==> ru[id].email == users[id].email;
    assert forall id :: id in rv ==> rv[id].email == vendors[id].email;
  }

  /** Saving an account of table `kind` whose e-mail no other account of either table has
      keeps the store valid. */
  lemma ReplacedValid(users: map<Id, Account>, vendors: map<Id, Account>, codes: map<Id, ResetCode>, bound: Id,
                      kind: AccountKind, a: Account)
    requires StoreValid(users, vendors, codes, bound)
    requires a.id in (if kind.UserAccounts? then users else vendors)
    requires a.resetCode.Some? ==> a.resetCode.value in codes
    requires EmailUnused(users, vendors, kind, a.email, Some(a.id))
    ensures kind.UserAccounts? ==> StoreValid(users[a.id := a], vendors, codes, bound)
    ensures kind.VendorAccounts? ==> StoreValid(users, vendors[a.id := a], codes, bound)
  {
  }

  /** A new account under the next id whose e-mail no account has keeps the store valid. */
  lemma AddedValid(users: map<Id, Account>, vendors: map<Id, Account>, codes: map<Id, ResetCode>, bound: Id,
                   kind: AccountKind, a: Account)
    requires StoreValid(users, vendors, codes, bound)
    requires a.id == bound && a.resetCode.None?
    requires EmailUnused(users, vendors, kind, a.email, None)
    ensures kind.UserAccounts? ==> StoreValid(users[a.id := a], vendors, codes, bound + 1)
    ensures kind.VendorAccounts? ==> StoreValid(users, vendors[a.id := a], codes, bound + 1)
  {
  }

  lemma CodeAddedValid(users: map<Id, Account>, vendors: map<Id, Account>, codes: map<Id, ResetCode>, bound: Id, rc: ResetCode)
    requires StoreValid(users, vendors, codes, bound)
    ensures StoreValid(users, vendors, codes[rc.id := rc], bound + 1)
  {
  }

  /** The row `create_user` makes: active, the fields stored as given, nothing else set. */
  function NewAccount(id: Id, email: Email, p: Profile): Account {
    Account(id, email, p.firstName, p.lastName, p.phone, p.password, true, false, false, None, None, false, None)
  }

  // ---------------------------------------------------------------------------
  // The state

  class AccountStore {
    var users: map<Id, Account>
    var vendors: map<Id, Account>
    var temporaries: map<Id, TemporaryUser>
    var codes: map<Id, ResetCode>
    var currencies: map<Id, Currency>
    /** Verification e-mails handed over, oldest first. */
    var mails: seq<Mail>
    var clock: Time
    /** The next primary key handed out (UUIDs in the source). */
    var nextId: Id

    ghost predicate Valid()
      reads this
    {
      && StoreValid(users, vendors, codes, nextId)
      && (forall id :: id in codes ==> id < nextId)
      && (forall id :: id in currencies ==> id < nextId)
    }

    constructor (now: Time)
      ensures Valid()
      ensures users == map[] && vendors == map[] && temporaries == map[] && codes == map[] && currencies == map[]
      ensures mails == [] && clock == now && nextId == 0
    {
      users, vendors, temporaries, codes, currencies := map[], map[], map[], map[], map[];
      mails, clock, nextId := [], now, 0;
    }

    function Table(kind: AccountKind): map<Id, Account>
      reads this
    {
      if kind.UserAccounts? then users else vendors
    }

    /** Save one account of a table. */
    method Put(kind: AccountKind, a: Account)
      requires Valid() && a.id in Table(kind)
      requires a.resetCode.Some? ==> a.resetCode.value in codes
      requires EmailUnused(users, vendors, kind, a.email, Some(a.id))
      modifies this`users, this`vendors
      ensures Valid()
      ensures Table(kind) == old(Table(kind))[a.id := a]
      ensures kind.UserAccounts? ==> vendors == old(vendors)
      ensures kind.VendorAccounts? ==> users == old(users)
    {
      if kind.UserAccounts? {
        PutUser(a);
      } else {
        PutVendor(a);
      }
    }

    method PutUser(a: Account)
      requires Valid() && a.id in users
      requires a.resetCode.Some? ==> a.resetCode.value in codes
      requires EmailUnused(users, vendors, UserAccounts, a.email, Some(a.id))
      modifies this`users
      ensures Valid()
      ensures users == old(users)[a.id := a]
    {
      ReplacedValid(users, vendors, codes, nextId, UserAccounts, a);
      users := users[a.id := a];
    }

    method PutVendor(a: Account)
      requires Valid() && a.id in vendors
      requires a.resetCode.Some? ==> a.resetCode.value in codes
      requires EmailUnused(users, vendors, VendorAccounts, a.email, Some(a.id))
      modifies this`vendors
      ensures Valid()
      ensures vendors == old(vendors)[a.id := a]
    {
      ReplacedValid(users, vendors, codes, nextId, VendorAccounts, a);
      vendors := vendors[a.id := a];
    }

    /** `reset_code.delete()`. */
    method DeleteResetCode(c: Id)
      requires Valid()
      modifies this`codes, this`users, this`vendors
      ensures Valid()
      ensures codes == old(codes) - {c}
      ensures users == Cleared(old(users), c) && vendors == Cleared(old(vendors), c)
    {
      ClearedValid(users, vendors, codes, nextId, c);
      users, vendors, codes := Cleared(users, c), Cleared(vendors, c), codes - {c};
    }

    /** `UserResetCode.objects.create(code=...)`. */
    method AddResetCode(code: string) returns (c: Id)
      requires Valid()
      modifies this`codes, this`nextId
      ensures Valid()
      ensures c == old(nextId) && nextId == c + 1
      ensures codes == old(codes)[c := ResetCode(c, code, clock)]
    {
      c := nextId;
      CodeAddedValid(users, vendors, codes, nextId, ResetCode(c, code, clock));
      codes := codes[c := ResetCode(c, code, clock)];
      nextId := nextId + 1;
    }

    // -------------------------------------------------------------------------
    // CustomUserManager

    /** `create_user`: an empty e-mail raises before anything is stored; the row is active and
        keeps the given fields as they are (no hashing). An e-mail any traveller or vendor
        already has fails in the database. */
    method CreateUser(kind: AccountKind, email: Email, p: Profile) returns (r: Result<Id>)
      requires Valid()
      modifies this`users, this`vendors, this`nextId
      ensures Valid()
      ensures email == [] ==> r == Err(Crash(EmailRequired))
      ensures email != [] && !EmailUnused(old(users), old(vendors), kind, email, None) ==> r == Err(Crash(EmailTaken))
      ensures r.Err? ==> users == old(users) && vendors == old(vendors) && nextId == old(nextId)
      ensures email != [] && EmailUnused(old(users), old(vendors), kind, email, None) ==>
        && r == Ok(old(nextId)) && nextId == old(nextId) + 1
        && Table(kind) == old(Table(kind))[old(nextId) := NewAccount(old(nextId), email, p)]
        && (kind.UserAccounts? ==> vendors == old(vendors))
        && (kind.VendorAccounts? ==> users == old(users))
    {
      if email == [] {
        return Err(Crash(EmailRequired));
      }
      if !EmailUnused(users, vendors, kind, email, None) {
        return Err(Crash(EmailTaken));
      }
      var a := NewAccount(nextId, email, p);
      AddedValid(users, vendors, codes, nextId, kind, a);
      if kind.UserAccounts? {
        users := users[nextId := a];
      } else {
        vendors := vendors[nextId := a];
      }
      r := Ok(nextId);
      nextId := nextId + 1;
    }

    /** `create_superuser`: `is_staff` and `is_superuser` default to true and must be true; the
        row is active and its password goes through `make_password`. */
    method CreateSuperuser(kind: AccountKind, email: Email, password: string, isStaff: Option<bool>, isSuperuser: Option<bool>,
                           makePassword: string -> string) returns (r: Result<Id>)
      requires Valid()
      modifies this`users, this`vendors, this`nextId
      ensures Valid()
      ensures email == [] ==> r == Err(Crash(EmailRequired))
      ensures email != [] && isStaff == Some(false) ==> r == Err(Crash(StaffRequired))
      ensures email != [] && isStaff != Some(false) && isSuperuser == Some(false) ==> r == Err(Crash(SuperuserRequired))
      ensures r.Err? ==> users == old(users) && vendors == old(vendors) && nextId == old(nextId)
      ensures r.Ok? ==>
        && email != [] && isStaff != Some(false) && isSuperuser != Some(false)
        && r.value == old(nextId) && nextId == old(nextId) + 1
        && Table(kind) == old(Table(kind))[r.value := Account(r.value, email, "", "", None, makePassword(password),
                                                              true, true, true, None, None, false, None)]
        && (kind.UserAccounts? ==> vendors == old(vendors))
        && (kind.VendorAccounts? ==> users == old(users))
      ensures email != [] && isStaff != Some(false) && isSuperuser != Some(false) && EmailUnused(old(users), old(vendors), kind, email, None) ==> r.Ok?
    {
      if email == [] {
        return Err(Crash(EmailRequired));
      }
      var staff := if isStaff.Some? then isStaff.value else true;
      var superuser := if isSuperuser.Some? then isSuperuser.value else true;
      if !staff {
        return Err(Crash(StaffRequired));
      }
      if !superuser {
        return Err(Crash(SuperuserRequired));
      }
      if !EmailUnused(users, vendors, kind, email, None) {
        return Err(Crash(EmailTaken));
      }
      var a := Account(nextId, email, "", "", None, makePassword(password), true, true, true, None, None, false, None);
      AddedValid(users, vendors, codes, nextId, kind, a);
      if kind.UserAccounts? {
        users := users[nextId := a];
      } else {
        vendors := vendors[nextId := a];
      }
      r := Ok(nextId);
      nextId := nextId + 1;
    }

    // -------------------------------------------------------------------------
    // User services

    /** `change_user_password`: the old password must check out, then the new one must equal
        its confirmation; only then is the password replaced. */
    method ChangeUserPassword(uid: Id, oldPassword: string, newPassword: string, confirmPassword: string,
                              checkPassword: (string, string) -> bool, makePassword: string -> string)
      returns (status: string)
      requires Valid() && uid in users
      modifies this`users
      ensures Valid()
      ensures !checkPassword(oldPassword, old(users)[uid].password) ==> status == PasswordNotCorrect && users == old(users)
      ensures checkPassword(oldPassword, old(users)[uid].password) && newPassword != confirmPassword ==>
        status == PasswordNotMatch && users == old(users)
      ensures checkPassword(oldPassword, old(users)[uid].password) && newPassword == confirmPassword ==>
        status == Succeeded && users == old(users)[uid := old(users)[uid].(password := makePassword(confirmPassword))]
    {
      var u := users[uid];
      if !checkPassword(oldPassword, u.password) {
        return PasswordNotCorrect;
      }
      if newPassword != confirmPassword {
        return PasswordNotMatch;
      }
      PutUser(u.(password := makePassword(confirmPassword)));
      status := Succeeded;
    }

    /** `Currency.objects.get_or_create(title=..., defaults={'price': ...})`. */
    method GetOrCreateCurrency(title: string, price: int) returns (c: Id)
      requires Valid()
      modifies this`currencies, this`nextId
      ensures Valid()
      ensures c in currencies && currencies[c].title == title
      ensures (exists k :: k in old(currencies) && old(currencies)[k].title == title) ==>
        currencies == old(currencies) && nextId == old(nextId)
      ensures (forall k :: k in old(currencies) ==> old(currencies)[k].title != title) ==>
        c == old(nextId) && currencies == old(currencies)[c := Currency(c, title, price)] && nextId == c + 1
    {
      if k :| k in currencies && currencies[k].title == title {
        c := k;
      } else {
        c := nextId;
        currencies := currencies[c := Currency(c, title, price)];
        nextId := nextId + 1;
      }
    }

    /** `create_verified_user_type`: the registration's code must match; then the account is
        created from it, given the KGS currency (a `Vendor` has no such column, so only the
        currency row is made), and the registration is removed. */
    method CreateVerifiedUserType(kind: AccountKind, token: Id, code: string) returns (r: Outcome<Id>)
      requires Valid()
      modifies this`users, this`vendors, this`temporaries, this`currencies, this`nextId
      ensures Valid()
      ensures token !in old(temporaries) ==>
        r == Failed(Crash("TemporaryUser.DoesNotExist")) && unchanged(this)
      ensures token in old(temporaries) && code != old(temporaries)[token].code ==>
        r == Declined(InvalidCode) && unchanged(this)
      ensures r.Success? ==>
        && token in old(temporaries) && code == old(temporaries)[token].code
        && r.value in Table(kind) && r.value !in old(Table(kind))
        && var t := old(temporaries)[token];
        var a := Table(kind)[r.value];
        && a.email == t.email && a.password == t.password && a.isActive
        && a.firstName == t.firstName && a.lastName == t.lastName && a.phone == t.phone
        && (kind.UserAccounts? ==> a.currency.Some? && a.currency.value in currencies
                                   && currencies[a.currency.value].title == DefaultCurrency)
        && temporaries == old(temporaries) - {token}
      ensures token in old(temporaries) && code == old(temporaries)[token].code ==>
        (r.Success? <==> old(temporaries)[token].email != [] && EmailUnused(old(users), old(vendors), kind, old(temporaries)[token].email, None))
      ensures r.Failed? && token in old(temporaries) ==> unchanged(this)
    {
      if token !in temporaries {
        return Failed(Crash("TemporaryUser.DoesNotExist"));
      }
      var t := temporaries[token];
      if code != t.code {
        return Declined(InvalidCode);
      }
      var created := CreateUser(kind, t.email, Profile(t.firstName, t.lastName, t.phone, t.password));
      if created.Err? {
        return Failed(created.fault);
      }
      var id := created.value;
      GiveDefaultCurrency(kind, id);
      temporaries := temporaries - {token};
      r := Success(id);
    }

    /** The KGS currency is found or created; a user account is linked to it. */
    method GiveDefaultCurrency(kind: AccountKind, id: Id)
      requires Valid() && id in Table(kind)
      modifies this`users, this`currencies, this`nextId
      ensures Valid()
      ensures kind.VendorAccounts? ==> users == old(users)
      ensures kind.UserAccounts? ==>
        && id in users && users[id] == old(users)[id].(currency := users[id].currency)
        && users == old(users)[id := users[id]]
        && users[id].currency.Some? && users[id].currency.value in currencies
        && currencies[users[id].currency.value].title == DefaultCurrency
    {
      var c := GetOrCreateCurrency(DefaultCurrency, 1);
      if kind.UserAccounts? {
        PutUser(users[id].(currency := Some(c)));
      }
    }

    /** `check_reset_code`: a matching code is consumed and an access token issued for the
        account; a wrong one changes nothing. */
    method CheckResetCode(kind: AccountKind, code: string, token: Id) returns (r: Outcome<Id>)
      requires Valid()
      modifies this`codes, this`users, this`vendors
      ensures Valid()
      ensures token !in old(Table(kind)) ==> r == Failed(Crash("IndexError: list index out of range")) && unchanged(this)
      ensures token in old(Table(kind)) && old(Table(kind))[token].resetCode.None? ==>
        r == Failed(Crash(NoResetCode)) && unchanged(this)
      ensures token in old(Table(kind)) && old(Table(kind))[token].resetCode.Some? ==>
        var c := old(Table(kind))[token].resetCode.value;
        && (code != old(codes)[c].code ==> r == Declined(InvalidCode) && unchanged(this))
        && (code == old(codes)[c].code ==>
              && r == Success(token)
              && codes == old(codes) - {c}
              && users == Cleared(old(users), c) && vendors == Cleared(old(vendors), c))
    {
      var table := Table(kind);
      if token !in table {
        return Failed(Crash("IndexError: list index out of range"));
      }
      var rc := table[token].resetCode;
      if rc.None? {
        return Failed(Crash(NoResetCode));
      }
      if code != codes[rc.value].code {
        return Declined(InvalidCode);
      }
      DeleteResetCode(rc.value);
      r := Success(token);
    }

    /** `check_user_password`: the confirmation is compared before the validators run, and the
        password is saved only once they pass. */
    method CheckUserPassword(kind: AccountKind, uid: Id, newPassword: string, confirmPassword: string,
                             validate: (string, Account) -> Option<string>, makePassword: string -> string)
      returns (r: Outcome<string>)
      requires Valid() && uid in Table(kind)
      modifies this`users, this`vendors
      ensures Valid()
      ensures newPassword != confirmPassword ==> r == Declined(PasswordsNotMatch) && unchanged(this)
      ensures newPassword == confirmPassword && validate(confirmPassword, old(Table(kind))[uid]).Some? ==>
        r == Declined(validate(confirmPassword, old(Table(kind))[uid]).value) && unchanged(this)
      ensures newPassword == confirmPassword && validate(confirmPassword, old(Table(kind))[uid]).None? ==>
        && r == Success(Succeeded)
        && Table(kind) == old(Table(kind))[uid := old(Table(kind))[uid].(password := makePassword(newPassword))]
        && (kind.UserAccounts? ==> vendors == old(vendors))
        && (kind.VendorAccounts? ==> users == old(users))
    {
      if newPassword != confirmPassword {
        return Declined(PasswordsNotMatch);
      }
      var u := Table(kind)[uid];
      var problem := validate(confirmPassword, u);
      if problem.Some? {
        return Declined(problem.value);
      }
      Put(kind, u.(password := makePassword(newPassword)));
      r := Success(Succeeded);
    }

    /** `send_new_reset_code`: any code the account holds is deleted, a fresh one is created
        and assigned, and it is mailed to the account. */
    method SendNewResetCode(kind: AccountKind, token: Id, picks: seq<nat>) returns (r: Outcome<string>)
      requires Valid() && |picks| == CodeLength
      modifies this`codes, this`users, this`vendors, this`nextId, this`mails
      ensures Valid()
      ensures token !in old(Table(kind)) ==> r == Failed(Crash("DoesNotExist")) && unchanged(this)
      ensures token in old(Table(kind)) ==>
        var a := old(Table(kind))[token];
        var code := GenerateVerificationCode(picks);
        var c := old(nextId);
        && r == Success(Succeeded)
        && token in Table(kind) && Table(kind)[token].resetCode == Some(c)
        && (var u, v := ClearedHeld(old(users), a.resetCode), ClearedHeld(old(vendors), a.resetCode);
            && (kind.UserAccounts? ==> users == Repointed(u, token, c) && vendors == v)
            && (kind.VendorAccounts? ==> users == u && vendors == Repointed(v, token, c)))
        && c in codes && codes[c] == ResetCode(c, code, clock)
        && (a.resetCode.Some? ==> a.resetCode.value !in codes)
        && codes == (if a.resetCode.Some? then old(codes) - {a.resetCode.value} else old(codes))[c := ResetCode(c, code, clock)]
        && nextId == c + 1
        && mails == old(mails) + [Mail(a.email, code)]
    {
      if token !in Table(kind) {
        return Failed(Crash("DoesNotExist"));
      }
      var code := GenerateVerificationCode(picks);
      var a := Table(kind)[token];
      var c := Reissue(kind, token, code);
      mails := mails + [Mail(a.email, code)];
      r := Success(Succeeded);
    }

    /** The account's held code, if any, is deleted, and a fresh row with `code` is created
        and assigned to it. */
    method Reissue(kind: AccountKind, token: Id, code: string) returns (c: Id)
      requires Valid() && token in Table(kind)
      modifies this`codes, this`users, this`vendors, this`nextId
      ensures Valid()
      ensures c == old(nextId) && nextId == c + 1
      ensures var held := old(Table(kind))[token].resetCode;
        && codes == (if held.Some? then old(codes) - {held.value} else old(codes))[c := ResetCode(c, code, clock)]
        && (held.Some? ==> held.value !in codes)
      ensures token in Table(kind) && Table(kind)[token].resetCode == Some(c)
      ensures Table(kind)[token].email == old(Table(kind))[token].email
      ensures var held := old(Table(kind))[token].resetCode;
        var u, v := ClearedHeld(old(users), held), ClearedHeld(old(vendors), held);
        && (kind.UserAccounts? ==> users == Repointed(u, token, c) && vendors == v)
        && (kind.VendorAccounts? ==> users == u && vendors == Repointed(v, token, c))
    {
      var held := Table(kind)[token].resetCode;
      if held.Some? {
        DeleteResetCode(held.value);
      }
      c := AddResetCode(code);
      Put(kind, Table(kind)[token].(resetCode := Some(c)));
    }

    // -------------------------------------------------------------------------
    // TwoFactorService

    /** `twofactor_setup`: a secret is stored only when there is none; the stored one is
        returned. */
    method TwofactorSetup(vid: Id, key: string) returns (secret: string)
      requires Valid() && vid in vendors
      modifies this`vendors
      ensures Valid()
      ensures old(vendors)[vid].secretKey.Some? ==> secret == old(vendors)[vid].secretKey.value && vendors == old(vendors)
      ensures old(vendors)[vid].secretKey.None? ==> secret == key && vendors == old(vendors)[vid := old(vendors)[vid].(secretKey := Some(key))]
      ensures vendors[vid].secretKey == Some(secret)
    {
      var v := vendors[vid];
      if v.secretKey.Some? {
        return v.secretKey.value;
      }
      PutVendor(v.(secretKey := Some(key)));
      secret := key;
    }

    /** `twofactor_verify`: a valid code flips `twofa` and reports the new state; a wrong code
        changes nothing. For a vendor without a secret, `TOTP(None).verify(code)` raises a
        TypeError, which the service does not catch. */
    method TwofactorVerify(code: string, email: Email, verify: (string, string) -> bool) returns (r: TwoFactorReply)
      requires Valid()
      modifies this`vendors
      ensures Valid()
      ensures EmailFree(old(vendors), email, None) ==> r == NoSuchVendor(NoVendorText) && vendors == old(vendors)
      ensures !EmailFree(old(vendors), email, None) ==>
        exists vid :: vid in old(vendors) && old(vendors)[vid].email == email &&
          var v := old(vendors)[vid];
          && (v.secretKey.None? ==> r == Crashed(Crash(NoTotpSecret)) && vendors == old(vendors))
          && (v.secretKey.Some? && !verify(v.secretKey.value, code) ==> r == WrongCode && vendors == old(vendors))
          && (v.secretKey.Some? && verify(v.secretKey.value, code) ==>
                r == Switched(!v.twofa) && vendors == old(vendors)[vid := v.(twofa := !v.twofa)])
    {
      if EmailFree(vendors, email, None) {
        return NoSuchVendor(NoVendorText);
      }
      var vid :| vid in vendors && vendors[vid].email == email;
      var v := vendors[vid];
      if v.secretKey.None? {
        return Crashed(Crash(NoTotpSecret));
      }
      if !verify(v.secretKey.value, code) {
        return WrongCode;
      }
      PutVendor(v.(twofa := !v.twofa));
      r := Switched(!v.twofa);
    }

    // -------------------------------------------------------------------------
    // VendorService: change of phone or e-mail by code

    /** `send_change_phone_code` / `send_change_email_code`: a code row is created and
        assigned; the e-mail variant mails it to the new address. An unknown vendor is the
        lookup's sentinel dictionary, which fails on the assignment after the row exists. */
    method SendChangeCode(vid: Id, target: Contact, picks: seq<nat>) returns (fault: Option<Fault>)
      requires Valid() && |picks| == CodeLength
      modifies this`codes, this`vendors, this`nextId, this`mails
      ensures Valid()
      ensures var code := GenerateVerificationCode(picks);
        && codes == old(codes)[old(nextId) := ResetCode(old(nextId), code, clock)]
        && nextId == old(nextId) + 1
        && (vid !in old(vendors) ==> fault == Some(Crash(SentinelNotAVendor)) && vendors == old(vendors) && mails == old(mails))
        && (vid in old(vendors) ==>
              && fault.None?
              && vendors == old(vendors)[vid := old(vendors)[vid].(resetCode := Some(old(nextId)))]
              && mails == old(mails) + (if target.Address? then [Mail(target.email, code)] else []))
    {
      var code := GenerateVerificationCode(picks);
      var c := AddResetCode(code);
      if vid !in vendors {
        return Some(Crash(SentinelNotAVendor));
      }
      PutVendor(vendors[vid].(resetCode := Some(c)));
      if target.Address? {
        mails := mails + [Mail(target.email, code)];
      }
      fault := None;
    }

    /** `resend_change_phone_code` / `resend_change_email_code`: as above, but a code the vendor
        already holds is deleted first. */
    method ResendChangeCode(vid: Id, target: Contact, picks: seq<nat>) returns (fault: Option<Fault>)
      requires Valid() && |picks| == CodeLength
      modifies this`codes, this`users, this`vendors, this`nextId, this`mails
      ensures Valid()
      ensures var code := GenerateVerificationCode(picks);
        var c := old(nextId);
        && nextId == c + 1
        && (vid !in old(vendors) ==>
              && fault == Some(Crash(SentinelNotAVendor))
              && codes == old(codes)[c := ResetCode(c, code, clock)]
              && vendors == old(vendors) && users == old(users) && mails == old(mails))
        && (vid in old(vendors) ==>
              var held := old(vendors)[vid].resetCode;
              && fault.None?
              && codes == (if held.Some? then old(codes) - {held.value} else old(codes))[c := ResetCode(c, code, clock)]
              && vid in vendors && vendors[vid].resetCode == Some(c)
              && users == ClearedHeld(old(users), held)
              && vendors == Repointed(ClearedHeld(old(vendors), held), vid, c)
              && mails == old(mails) + (if target.Address? then [Mail(target.email, code)] else []))
    {
      var code := GenerateVerificationCode(picks);
      if vid !in vendors {
        var c := AddResetCode(code);
        return Some(Crash(SentinelNotAVendor));
      }
      var c := Reissue(VendorAccounts, vid, code);
      if target.Address? {
        mails := mails + [Mail(target.email, code)];
      }
      fault := None;
    }

    /** `check_change_phone_code` / `check_change_email_code`: the code must be at most three
        minutes old (checked first) and equal to the one sent; then the contact detail is
        replaced and the code deleted. A failed check changes nothing. */
    method ConfirmChangeCode(vid: Id, code: string, target: Contact) returns (r: Result<Id>)
      requires Valid()
      modifies this`codes, this`users, this`vendors
      ensures Valid()
      ensures vid !in old(vendors) ==> r == Err(Crash(SentinelNotAVendor)) && unchanged(this)
      ensures vid in old(vendors) && old(vendors)[vid].resetCode.None? ==> r == Err(Crash(NoCodeDate)) && unchanged(this)
      ensures vid in old(vendors) && old(vendors)[vid].resetCode.Some? ==>
        var v := old(vendors)[vid];
        var c := v.resetCode.value;
        var check := CheckChangeCode(clock, old(codes)[c], code);
        && (check.Some? ==> r == Err(check.value) && unchanged(this))
        && (check.None? && target.Address? && !EmailUnused(old(users), old(vendors), VendorAccounts, target.email, Some(vid)) ==>
              r == Err(Crash(EmailTaken)) && unchanged(this))
        && (check.None? && (target.Phone? || EmailUnused(old(users), old(vendors), VendorAccounts, target.email, Some(vid))) ==>
              var changed := if target.Phone? then v.(phone := Some(target.number)) else v.(email := target.email);
              && r == Ok(vid)
              && codes == old(codes) - {c}
              && vendors == Cleared(old(vendors)[vid := changed], c)
              && users == Cleared(old(users), c))
    {
      if vid !in vendors {
        return Err(Crash(SentinelNotAVendor));
      }
      var v := vendors[vid];
      if v.resetCode.None? {
        return Err(Crash(NoCodeDate));
      }
      var c := v.resetCode.value;
      var check := CheckChangeCode(clock, codes[c], code);
      if check.Some? {
        return Err(check.value);
      }
      if target.Address? && !EmailUnused(users, vendors, VendorAccounts, target.email, Some(vid)) {
        return Err(Crash(EmailTaken));
      }
      var changed := if target.Phone? then v.(phone := Some(target.number)) else v.(email := target.email);
      PutVendor(changed);
      DeleteResetCode(c);
      r := Ok(vid);
    }

    /** `VendorService.change_password`: the old password must check out; otherwise the error
        names the `old_password` field. */
    method ChangeVendorPassword(vid: Id, newPassword: string, oldPassword: string,
                                checkPassword: (string, string) -> bool, makePassword: string -> string)
      returns (fault: Option<Fault>)
      requires Valid() && vid in vendors
      modifies this`vendors
      ensures Valid()
      ensures !checkPassword(oldPassword, old(vendors)[vid].password) ==>
        fault == Some(Raised(400, Fields(map[OldPasswordField := WrongOldPassword]))) && vendors == old(vendors)
      ensures checkPassword(oldPassword, old(vendors)[vid].password) ==>
        fault.None? && vendors == old(vendors)[vid := old(vendors)[vid].(password := makePassword(newPassword))]
    {
      var v := vendors[vid];
      if !checkPassword(oldPassword, v.password) {
        return Some(Raised(400, Fields(map[OldPasswordField := WrongOldPassword])));
      }
      PutVendor(v.(password := makePassword(newPassword)));
      fault := None;
    }
  }
}
