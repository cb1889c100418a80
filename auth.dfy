/**
 * The entitlement state of the site's browser side (js/auth.js) in demo
 * mode: the account list, the signed-in user, the plan slot, the per-user
 * monthly usage counters and the per-tool tickets.
 *
 * Browser storage is abstracted to fields of one object. `session` is the
 * `tamj_demo_user` slot of sessionStorage; `plan` and `tickets` are the
 * decoded `tamj_plan` and `tamj_tickets` slots of localStorage; `storage`
 * is the rest of localStorage, which holds the usage counters as strings.
 * The clock and the calendar month are parameters.
 */
module Auth {
  import opened Wrappers
  import opened JsString

  /** The free allowance per month that `getRemainingUses` and `canUseService` compare with. */
  const FreeUses := 3

  /** A ticket lasts 24 hours, in milliseconds. */
  const TicketLifetimeMs := 24 * 60 * 60 * 1000

  /** The localStorage keys that are modelled as their own fields. */
  const PlanSlotKey := "tamj_plan"
  const TicketsSlotKey := "tamj_tickets"
  const UsageKeyPrefix := "tamj_usage_"

  datatype Account = Account(email: string, password: string, name: string, plan: string)

  /** The session record: what `_currentUser` and `tamj_demo_user` hold. */
  datatype User = User(email: string, displayName: string, uid: string)

  datatype AuthError = DuplicateAccount | AccountNotFound | WrongPassword

  /** `{ ok: true, user }` or `{ ok: false, error }`. */
  datatype AuthResult = Success(user: User) | Failure(error: AuthError)

  datatype Plan = Free | Pro

  /** The `plan` member of a stored JSON value, as far as truthiness needs it. */
  datatype JsonValue = Missing | Null | Bool(b: bool) | Number(n: int) | Text(s: string) | Compound

  /**
   * The `tamj_plan` slot: absent; a stored string that is not JSON (what
   * `setPlan` writes: `free`, `pro`); or stored JSON (what checkout writes),
   * of which only the `plan` member matters.
   */
  datatype PlanSlot = NoPlan | PlainText(raw: string) | PlanRecord(plan: JsonValue)

  /** Where the page was sent: the abstract effect of `location.href` and `location.reload`. */
  datatype Navigation = Stay | Reloaded | LoginPage | PaymentRedirect(toolId: string, email: string, clientReference: string)

  /** `getRemainingUses()`: `Infinity` or a number. */
  datatype Uses = Unlimited | Limited(left: Num)

  /** What `new Date()` contributes to a usage key: `getFullYear()` and `getMonth() + 1`. */
  datatype YearMonth = YearMonth(year: nat, month: nat)

  /** `DEMO_ACCOUNTS` as each page load starts with it. */
  const DemoAccounts: seq<Account> := [
    Account("demo@tamj.jp", "tamj1234", "デモユーザー", "free"),
    Account("test@tamj.jp", "test1234", "テストユーザー", "free"),
    Account("info@tamjump.com", "tamj2026", "TAmJ Admin", "pro")
  ]

  const GenericErrorMessage := "エラーが発生しました。"

  const FirebaseMessages: map<string, string> := map[
    "auth/email-already-in-use" := "このメールアドレスは既に登録されています。",
    "auth/invalid-email" := "メールアドレスの形式が正しくありません。",
    "auth/weak-password" := "パスワードは6文字以上で設定してください。",
    "auth/user-not-found" := "アカウントが見つかりません。",
    "auth/wrong-password" := "パスワードが正しくありません。",
    "auth/too-many-requests" := "ログイン試行が多すぎます。しばらく待ってください。"
  ]

  /** `firebaseErrorMessage(code)`: the message for a known code, the generic one otherwise. */
  function FirebaseErrorMessage(code: string): (m: string)
    ensures code in FirebaseMessages ==> m == FirebaseMessages[code]
    ensures code !in FirebaseMessages ==> m == GenericErrorMessage
    ensures m in FirebaseMessages.Values || m == GenericErrorMessage
  {
    if code in FirebaseMessages && FirebaseMessages[code] != "" then FirebaseMessages[code] else GenericErrorMessage
  }

  /** The provider code whose message each demo-mode failure uses. */
  function FirebaseCode(e: AuthError): string {
    match e
    case DuplicateAccount => "auth/email-already-in-use"
    case AccountNotFound => "auth/user-not-found"
    case WrongPassword => "auth/wrong-password"
  }

  /** The message the demo branches return; each is the one the provider path gives for the same failure. */
  function ErrorMessage(e: AuthError): (m: string)
    ensures m == FirebaseErrorMessage(FirebaseCode(e))
  {
    match e
    case DuplicateAccount => "このメールアドレスは既に登録されています。"
    case AccountNotFound => "アカウントが見つかりません。"
    case WrongPassword => "パスワードが正しくありません。"
  }

  /** `email.trim().toLowerCase()`. */
  function Normalise(email: string): (r: string)
    ensures |r| <= |email|
  {
    Lower(Trim(email))
  }

  /**
   * A normalised address is no longer than the input, holds no ASCII capital
   * and neither starts nor ends with white space.
   */
  lemma NormaliseCanonical(email: string)
    ensures var r := Normalise(email);
      |r| <= |email| &&
      (forall i :: 0 <= i < |r| ==> !('A' <= r[i] <= 'Z')) &&
      (r == [] || (!IsSpace(r[0]) && !IsSpace(r[|r| - 1])))
  {
    var t := Trim(email);
    var r := Lower(t);
    assert r == Normalise(email) && |r| == |t| <= |email|;
    forall i | 0 <= i < |r|
      ensures !('A' <= r[i] <= 'Z')
    {
      assert r[i] == LowerChar(t[i]);
    }
    if r != [] {
      assert r[0] == LowerChar(t[0]) && r[|r| - 1] == LowerChar(t[|t| - 1]);
      SpaceLower(t[0]);
      SpaceLower(t[|t| - 1]);
    }
  }

  /** A normalised address normalises to itself, so stored addresses are canonical. */
  lemma NormaliseIdempotent(email: string)
    ensures Normalise(Normalise(email)) == Normalise(email)
  {
    var t := Trim(email);
    TrimStartLower(t);
    TrimEndLower(TrimStart(t));
    TrimIdempotent(email);
    LowerIdempotent(t);
  }

  /** `email.split('@')[0]`: everything before the first `@`. */
  function LocalPart(s: string): (r: string)
    ensures |r| <= |s| && r == s[..|r|] && '@' !in r
    ensures |r| < |s| ==> s[|r|] == '@'
  {
    if s == [] || s[0] == '@' then [] else [s[0]] + LocalPart(s[1..])
  }

  predicate IsLowerAlnum(c: char) {
    'a' <= c <= 'z' || '0' <= c <= '9'
  }

  /** `s.replace(/[^a-z0-9]/g, '_')`. */
  function Sanitise(s: string): (r: string)
    ensures |r| == |s|
    ensures forall i :: 0 <= i < |s| ==> r[i] == if IsLowerAlnum(s[i]) then s[i] else '_'
  {
    seq(|s|, i requires 0 <= i < |s| => if IsLowerAlnum(s[i]) then s[i] else '_')
  }

  /**
   * `s.replace(/[^a-z0-9]/g, '')`: keeps the lower-case letters and digits
   * and drops every other character; `StripCounts` and `StripAppend` say how
   * often and in which order.
   */
  function StripNonAlnum(s: string): (r: string)
    ensures |r| <= |s|
    ensures forall c :: c in r <==> c in s && IsLowerAlnum(c)
  {
    if s == [] then []
    else if IsLowerAlnum(s[0]) then [s[0]] + StripNonAlnum(s[1..])
    else StripNonAlnum(s[1..])
  }

  /** Each lower-case letter and digit is kept as often as it occurs, and nothing else is. */
  lemma {:induction false} StripCounts(s: string)
    ensures forall c :: multiset(StripNonAlnum(s))[c] == if IsLowerAlnum(c) then multiset(s)[c] else 0
  {
    if s != [] {
      assert s == [s[0]] + s[1..];
      StripCounts(s[1..]);
    }
  }

  /** Stripping works piece by piece, so the kept characters stay in their order. */
  lemma {:induction false} StripAppend(a: string, b: string)
    ensures StripNonAlnum(a + b) == StripNonAlnum(a) + StripNonAlnum(b)
  {
    if a == [] {
      assert a + b == b;
    } else {
      assert (a + b)[0] == a[0] && (a + b)[1..] == a[1..] + b;
      StripAppend(a[1..], b);
    }
  }

  /** A string of lower-case letters and digits is left as it is. */
  lemma {:induction false} StripKeepsAlnum(s: string)
    requires forall i :: 0 <= i < |s| ==> IsLowerAlnum(s[i])
    ensures StripNonAlnum(s) == s
  {
    if s != [] {
      StripKeepsAlnum(s[1..]);
    }
  }

  /** `s.padStart(2, '0')`. */
  function PadStart2(s: string): (r: string)
    ensures |s| < 2 ==> |r| == 2
    ensures |s| >= 2 ==> r == s
    ensures r[|r| - |s|..] == s && forall i :: 0 <= i < |r| - |s| ==> r[i] == '0'
  {
    if |s| == 0 then "00" else if |s| == 1 then "0" + s else s
  }

  /**
   * The usage key for an identifier and a month:
   * `'tamj_usage_' + id + '_' + year + '-' + MM`, with `id` sanitised.
   */
  function UsageKeyFor(id: string, ym: YearMonth): (k: string)
    ensures |k| > |TicketsSlotKey| && |k| > |PlanSlotKey|
    ensures k != PlanSlotKey && k != TicketsSlotKey
  {
    UsageKeyPrefix + Sanitise(id) + "_" + MonthStamp(ym)
  }

  /** `year + '-' + String(month).padStart(2, '0')`. */
  function MonthStamp(ym: YearMonth): (s: string)
    ensures |s| >= 4
    ensures 1 <= ym.month <= 12 ==>
      s[|s| - 3] == '-' && IsDigit(s[|s| - 2]) && IsDigit(s[|s| - 1]) &&
      s[|s| - 2..] == PadStart2(NatToString(ym.month))
  {
    NatToString(ym.year) + "-" + PadStart2(NatToString(ym.month))
  }

  /** The two digits a month 1..12 is written with tell the month. */
  lemma MonthDigitsInjective(m1: nat, m2: nat)
    requires 1 <= m1 <= 12 && 1 <= m2 <= 12
    requires PadStart2(NatToString(m1)) == PadStart2(NatToString(m2))
    ensures m1 == m2
  {
    var s1, s2 := NatToString(m1), NatToString(m2);
    assert m1 < 10 ==> |s1| == 1;
    assert m2 < 10 ==> |s2| == 1;
    assert s1 == s2;
    NatToStringInjective(m1, m2);
  }

  /** Equal concatenations whose right parts have equal lengths have equal parts. */
  lemma SplitConcat(a1: string, b1: string, a2: string, b2: string)
    requires a1 + b1 == a2 + b2 && |b1| == |b2|
    ensures a1 == a2 && b1 == b2
  {
    assert a1 == (a1 + b1)[..|a1|];
    assert a2 == (a2 + b2)[..|a2|];
    assert b1 == (a1 + b1)[|a1|..];
    assert b2 == (a2 + b2)[|a2|..];
  }

  /** A new calendar month gives a new usage key: the monthly reset. */
  lemma UsageKeyPerMonth(id: string, ym1: YearMonth, ym2: YearMonth)
    requires 1 <= ym1.month <= 12 && 1 <= ym2.month <= 12
    requires ym1 != ym2
    ensures UsageKeyFor(id, ym1) != UsageKeyFor(id, ym2)
  {
    var p := UsageKeyPrefix + Sanitise(id) + "_";
    var s1, s2 := MonthStamp(ym1), MonthStamp(ym2);
    if UsageKeyFor(id, ym1) == UsageKeyFor(id, ym2) {
      assert p + s1 == p + s2;
      SplitConcat(p, s1, p, s2);
      var y1, y2 := NatToString(ym1.year), NatToString(ym2.year);
      var m1, m2 := PadStart2(NatToString(ym1.month)), PadStart2(NatToString(ym2.month));
      assert |m1| == 2 && |m2| == 2;
      SplitConcat(y1 + "-", m1, y2 + "-", m2);
      SplitConcat(y1, "-", y2, "-");
      NatToStringInjective(ym1.year, ym2.year);
      MonthDigitsInjective(ym1.month, ym2.month);
    }
  }

  /** JavaScript truthiness of a stored JSON member. */
  predicate Truthy(v: JsonValue) {
    match v
    case Missing => false
    case Null => false
    case Bool(b) => b
    case Number(n) => n != 0
    case Text(s) => s != ""
    case Compound => true
  }

  /**
   * `getPlan()`: absent or empty is free; JSON with a truthy `plan` member
   * is pro whatever that member says; the bare string `pro` is pro;
   * anything else is free.
   */
  function GetPlan(slot: PlanSlot): (p: Plan)
    ensures p == Pro <==> slot == PlainText("pro") || (slot.PlanRecord? && Truthy(slot.plan))
  {
    match slot
    case NoPlan => Free
    case PlainText(raw) => if raw == "" then Free else if raw == "pro" then Pro else Free
    case PlanRecord(field) => if Truthy(field) then Pro else Free
  }

  /** What `setPlan(p)` stores decodes back as pro exactly when `p` is `pro`. */
  lemma SetPlanDecodes(p: string)
    ensures GetPlan(PlainText(p)) == (if p == "pro" then Pro else Free)
  {
  }

  /** A structured plan record is pro even when its member says `free`. */
  lemma RecordImpliesPro(member: JsonValue)
    requires Truthy(member)
    ensures GetPlan(PlanRecord(member)) == Pro
  {
  }

  /** `!localStorage.getItem('tamj_plan')`. */
  predicate SlotEmpty(slot: PlanSlot): (b: bool)
    ensures b ==> GetPlan(slot) == Free
  {
    slot == NoPlan || slot == PlainText("")
  }

  /** `DEMO_ACCOUNTS.find(a => a.email === email)`, as the index of the first match. */
  function FindAccount(accounts: seq<Account>, email: string): (r: Option<nat>)
    ensures r.Some? ==> r.value < |accounts| && accounts[r.value].email == email
    ensures r.Some? ==> forall j :: 0 <= j < r.value ==> accounts[j].email != email
    ensures r.None? <==> forall j :: 0 <= j < |accounts| ==> accounts[j].email != email
  {
    if accounts == [] then None
    else if accounts[0].email == email then Some(0)
    else match FindAccount(accounts[1..], email)
      case None => None
      case Some(i) => Some(i + 1)
  }

  /** No address is listed twice. */
  predicate DistinctEmails(accounts: seq<Account>) {
    forall i, j :: 0 <= i < j < |accounts| ==> accounts[i].email != accounts[j].email
  }

  /** White space around an address makes no difference once it is normalised. */
  lemma NormaliseIgnoresSpace(w1: string, e: string, w2: string)
    requires forall i :: 0 <= i < |w1| ==> IsSpace(w1[i])
    requires forall i :: 0 <= i < |w2| ==> IsSpace(w2[i])
    ensures Normalise(w1 + e + w2) == Normalise(e)
  {
    assert w1 + e + w2 == w1 + (e + w2);
    TrimStartSpace(w1, e + w2);
    TrimSpaceAfter(e, w2);
  }

  /** Normalising is trimming the lowercased address. */
  lemma NormaliseLowersFirst(e: string)
    ensures Normalise(e) == Trim(Lower(e))
  {
    TrimStartLower(e);
    TrimEndLower(TrimStart(e));
  }

  /** Addresses that differ only in the case of their letters normalise alike. */
  lemma NormaliseIgnoresCase(a: string, b: string)
    requires |a| == |b| && forall i :: 0 <= i < |a| ==> LowerChar(a[i]) == LowerChar(b[i])
    ensures Normalise(a) == Normalise(b)
  {
    assert Lower(a) == Lower(b);
    NormaliseLowersFirst(a);
    NormaliseLowersFirst(b);
  }

  /**
   * An address typed with other letter case and surrounding white space
   * finds the same account as the address itself.
   */
  lemma FindIgnoresCaseAndSpace(accounts: seq<Account>, w1: string, a: string, w2: string, b: string)
    requires forall i :: 0 <= i < |w1| ==> IsSpace(w1[i])
    requires forall i :: 0 <= i < |w2| ==> IsSpace(w2[i])
    requires |a| == |b| && forall i :: 0 <= i < |a| ==> LowerChar(a[i]) == LowerChar(b[i])
    ensures Normalise(w1 + a + w2) == Normalise(b)
    ensures FindAccount(accounts, Normalise(w1 + a + w2)) == FindAccount(accounts, Normalise(b))
  {
    NormaliseIgnoresSpace(w1, a, w2);
    NormaliseIgnoresCase(a, b);
  }

  /** Whether `tickets[toolId] && tickets[toolId] > now`. */
  predicate TicketLive(tickets: map<string, int>, toolId: string, now: int): (b: bool)
    ensures now >= 0 ==> (b <==> toolId in tickets && tickets[toolId] > now)
    ensures b ==> toolId in tickets && tickets[toolId] > now
  {
    toolId in tickets && tickets[toolId] != 0 && tickets[toolId] > now
  }

  /**
   * A ticket minted at `minted` is live at `t` exactly while `t` is before
   * its expiry, and minting it leaves every other tool's ticket as it was.
   */
  lemma TicketLifetime(tickets: map<string, int>, toolId: string, other: string, minted: nat, t: nat)
    requires other != toolId
    ensures TicketLive(tickets[toolId := minted + TicketLifetimeMs], toolId, t) <==> t < minted + TicketLifetimeMs
    ensures TicketLive(tickets[toolId := minted + TicketLifetimeMs], other, t) <==> TicketLive(tickets, other, t)
  {
  }

  function Max(a: int, b: int): int {
    if a >= b then a else b
  }

  class Entitlements {
    /** `USE_DEMO`. */
    const demo: bool
    /** `DEMO_ACCOUNTS`. */
    var accounts: seq<Account>
    /** `_currentUser`. */
    var currentUser: Option<User>
    /** sessionStorage `tamj_demo_user`. */
    var session: Option<User>
    /** localStorage `tamj_plan`. */
    var plan: PlanSlot
    /** localStorage `tamj_tickets`, decoded: tool id to expiry in epoch milliseconds. */
    var tickets: map<string, int>
    /** The other localStorage slots: the usage counters. */
    var storage: map<string, string>
    /** The `paid` parameter of the page's query string. */
    var paidParam: Option<string>
    var navigation: Navigation

    ghost predicate Valid()
      reads this`accounts
    {
      DistinctEmails(accounts)
    }

    /** A page load: the module globals start afresh, the stores keep what they held. */
    constructor (demo: bool, session: Option<User>, plan: PlanSlot, tickets: map<string, int>,
                 storage: map<string, string>, paidParam: Option<string>)
      ensures Valid()
      ensures this.demo == demo && accounts == DemoAccounts && currentUser == None
      ensures this.session == session && this.plan == plan && this.tickets == tickets
      ensures this.storage == storage && this.paidParam == paidParam && navigation == Stay
    {
      this.demo := demo;
      accounts := DemoAccounts;
      currentUser := None;
      this.session := session;
      this.plan := plan;
      this.tickets := tickets;
      this.storage := storage;
      this.paidParam := paidParam;
      navigation := Stay;
      DemoAccountsDistinct();
    }

    /** `onAuthReady` in demo mode: the signed-in user is read back from the session slot. */
    method Restore() returns (user: Option<User>)
      requires demo
      modifies this`currentUser
      ensures currentUser == session && user == session
    {
      currentUser := session;
      user := currentUser;
    }

    /** `setPlan(p)`. */
    method SetPlan(p: string)
      modifies this`plan
      ensures plan == PlainText(p)
    {
      plan := PlainText(p);
    }

    /** `isPro()`. */
    function IsPro(): (b: bool)
      reads this`plan
      ensures b <==> GetPlan(plan) == Pro
    {
      GetPlan(plan) == Pro
    }

    /** `registerUser` in demo mode. */
    method Register(email: string, password: string, displayName: string, now: nat) returns (r: AuthResult)
      requires demo && Valid()
      modifies this`accounts, this`currentUser, this`session, this`plan
      ensures Valid()
      ensures FindAccount(old(accounts), Normalise(email)).Some? ==>
        && r == Failure(DuplicateAccount)
        && accounts == old(accounts) && currentUser == old(currentUser)
        && session == old(session) && plan == old(plan)
      ensures FindAccount(old(accounts), Normalise(email)).None? ==>
        var e := Normalise(email);
        var user := User(e, if displayName != "" then displayName else LocalPart(e), "demo_" + NatToString(now));
        && r == Success(user)
        && accounts == old(accounts) + [Account(e, password, user.displayName, "free")]
        && currentUser == Some(user) && session == Some(user) && plan == PlainText("free")
    {
      var e := Normalise(email);
      if FindAccount(accounts, e).Some? {
        return Failure(DuplicateAccount);
      }
      var user := User(e, if displayName != "" then displayName else LocalPart(e), "demo_" + NatToString(now));
      DistinctAppend(accounts, Account(e, password, user.displayName, "free"));
      accounts := accounts + [Account(e, password, user.displayName, "free")];
      currentUser := Some(user);
      session := Some(user);
      SetPlan("free");
      r := Success(user);
    }

    /** `loginUser` in demo mode. */
    method Login(email: string, password: string) returns (r: AuthResult)
      requires demo
      modifies this`currentUser, this`session, this`plan
      ensures FindAccount(accounts, Normalise(email)).None? ==>
        r == Failure(AccountNotFound) && currentUser == old(currentUser) && session == old(session) && plan == old(plan)
      ensures FindAccount(accounts, Normalise(email)).Some? && accounts[FindAccount(accounts, Normalise(email)).value].password != password ==>
        r == Failure(WrongPassword) && currentUser == old(currentUser) && session == old(session) && plan == old(plan)
      ensures FindAccount(accounts, Normalise(email)).Some? && accounts[FindAccount(accounts, Normalise(email)).value].password == password ==>
        var a := accounts[FindAccount(accounts, Normalise(email)).value];
        var user := User(a.email, a.name, "demo_" + StripNonAlnum(Normalise(email)));
        && r == Success(user) && currentUser == Some(user) && session == Some(user)
        && plan == (if a.plan == "pro" then PlainText("pro") else if SlotEmpty(old(plan)) then PlainText("free") else old(plan))
    {
      var e := Normalise(email);
      var found := FindAccount(accounts, e);
      if found.None? {
        return Failure(AccountNotFound);
      }
      var a := accounts[found.value];
      if a.password != password {
        return Failure(WrongPassword);
      }
      var user := User(a.email, a.name, "demo_" + StripNonAlnum(e));
      currentUser := Some(user);
      session := Some(user);
      if a.plan == "pro" {
        SetPlan("pro");
      } else if SlotEmpty(plan) {
        SetPlan("free");
      }
      r := Success(user);
    }

    /** `logoutUser` in demo mode: drops the user and the plan and goes to the login page. */
    method Logout()
      requires demo
      modifies this`currentUser, this`session, this`plan, this`navigation
      ensures currentUser == None && session == None && plan == NoPlan && navigation == LoginPage
    {
      currentUser := None;
      session := None;
      plan := NoPlan;
      navigation := LoginPage;
    }

    /** `_currentUser?.email || _getDemoSession()?.email || 'anon'`. */
    function UsageId(): (id: string)
      reads this`currentUser, this`session
      ensures id != ""
      ensures currentUser.Some? && currentUser.value.email != "" ==> id == currentUser.value.email
      ensures (currentUser.None? || currentUser.value.email == "") && session.Some? && session.value.email != "" ==> id == session.value.email
      ensures (currentUser.None? || currentUser.value.email == "") && (session.None? || session.value.email == "") ==> id == "anon"
    {
      if currentUser.Some? && currentUser.value.email != "" then currentUser.value.email
      else if session.Some? && session.value.email != "" then session.value.email
      else "anon"
    }

    /** `_usageKey()` for the given month. */
    function UsageKey(ym: YearMonth): (k: string)
      reads this`currentUser, this`session
      ensures k != PlanSlotKey && k != TicketsSlotKey
    {
      UsageKeyFor(UsageId(), ym)
    }

    /**
     * `getUsageCount()`: the slot read with `parseInt`; an absent or empty
     * slot reads as `'0'`, which is 0 (`ParseZero`).
     */
    function UsageCount(ym: YearMonth): (n: Num)
      reads this`currentUser, this`session, this`storage
      ensures UsageKey(ym) !in storage || storage[UsageKey(ym)] == "" ==> n == Int(0)
      ensures UsageKey(ym) in storage && storage[UsageKey(ym)] != "" ==> n == ParseInt(storage[UsageKey(ym)])
    {
      var key := UsageKey(ym);
      if key in storage && storage[key] != "" then ParseInt(storage[key]) else Int(0)
    }

    /** `incrementUsage()`: one key's counter goes up by one; every other slot stays. */
    method IncrementUsage(ym: YearMonth) returns (count: Num)
      modifies this`storage
      ensures count == Succ(old(UsageCount(ym)))
      ensures storage == old(storage)[UsageKey(ym) := NumToString(count)]
      ensures UsageCount(ym) == count
    {
      var key := UsageKey(ym);
      count := Succ(UsageCount(ym));
      var text := NumToString(count);
      storage := storage[key := text];
      assert UsageKey(ym) == key && key in storage && storage[key] == text;
      assert UsageCount(ym) == ParseInt(text);
      ParseIntRoundTrip(count);
    }

    /** `getRemainingUses()`. */
    function RemainingUses(ym: YearMonth): (u: Uses)
      reads this`plan, this`currentUser, this`session, this`storage
      ensures u.Unlimited? <==> IsPro()
      ensures u.Limited? ==> (u.left.NaN? <==> UsageCount(ym).NaN?)
      ensures u.Limited? && u.left.Int? ==> u.left.i == Max(0, FreeUses - UsageCount(ym).i)
      ensures u.Limited? && u.left.Int? ==> 0 <= u.left.i
      ensures u.Limited? && u.left.Int? && UsageCount(ym).i >= 0 ==> u.left.i <= FreeUses
    {
      if IsPro() then Unlimited
      else match UsageCount(ym)
        case NaN => Limited(NaN)
        case Int(c) => Limited(Int(Max(0, FreeUses - c)))
    }

    /** `canUseService()`: pro, or fewer than three uses this month; it agrees with the remaining count. */
    function CanUseService(ym: YearMonth): (b: bool)
      reads this`plan, this`currentUser, this`session, this`storage
      ensures b <==> IsPro() || (UsageCount(ym).Int? && UsageCount(ym).i < FreeUses)
      ensures b <==> RemainingUses(ym).Unlimited? || (RemainingUses(ym).left.Int? && RemainingUses(ym).left.i > 0)
    {
      if IsPro() then true else UsageCount(ym).Int? && UsageCount(ym).i < FreeUses
    }

    /** `hasValidTicket(toolId)`: always in demo mode, otherwise while the ticket has not expired. */
    function HasValidTicket(toolId: string, now: nat): (b: bool)
      reads this`tickets
      ensures b <==> demo || (toolId in tickets && tickets[toolId] > now)
    {
      if demo then true else TicketLive(tickets, toolId, now)
    }

    /** `_currentUser?.email || ''`. */
    function RedirectEmail(): (e: string)
      reads this`currentUser
      ensures currentUser.None? ==> e == ""
      ensures currentUser.Some? ==> e == currentUser.value.email
    {
      if currentUser.Some? then currentUser.value.email else ""
    }

    /** `_currentUser?.uid || 'anonymous'`. */
    function ClientReference(): (r: string)
      reads this`currentUser
      ensures r != ""
      ensures currentUser.Some? && currentUser.value.uid != "" ==> r == currentUser.value.uid
      ensures currentUser.None? || currentUser.value.uid == "" ==> r == "anonymous"
    {
      if currentUser.Some? && currentUser.value.uid != "" then currentUser.value.uid else "anonymous"
    }

    /**
     * `startPayment(toolId)`: demo mode mints a ticket at once and reloads;
     * otherwise a live ticket means nothing to do, and no ticket means a
     * redirect to the payment provider.
     */
    method StartPayment(toolId: string, now: nat) returns (r: bool)
      modifies this`tickets, this`navigation
      ensures demo ==> r && tickets == old(tickets)[toolId := now + TicketLifetimeMs] && navigation == Reloaded
      ensures !demo && TicketLive(old(tickets), toolId, now) ==>
        r && tickets == old(tickets) && navigation == old(navigation)
      ensures !demo && !TicketLive(old(tickets), toolId, now) ==>
        !r && tickets == old(tickets) && navigation == PaymentRedirect(toolId, RedirectEmail(), ClientReference())
    {
      if demo {
        tickets := tickets[toolId := now + TicketLifetimeMs];
        navigation := Reloaded;
        return true;
      }
      if TicketLive(tickets, toolId, now) {
        return true;
      }
      navigation := PaymentRedirect(toolId, RedirectEmail(), ClientReference());
      r := false;
    }

    /** `handlePaymentSuccess()`: a non-empty `paid` parameter mints that tool's ticket and is stripped. */
    method HandlePaymentSuccess(now: nat) returns (r: bool)
      modifies this`tickets, this`paidParam
      ensures r <==> old(paidParam).Some? && old(paidParam).value != ""
      ensures r ==> tickets == old(tickets)[old(paidParam).value := now + TicketLifetimeMs] && paidParam == None
      ensures !r ==> tickets == old(tickets) && paidParam == old(paidParam)
    {
      if paidParam.Some? && paidParam.value != "" {
        tickets := tickets[paidParam.value := now + TicketLifetimeMs];
        paidParam := None;
        return true;
      }
      r := false;
    }
  }

  /** Adding an address that is not yet listed keeps the addresses distinct. */
  lemma DistinctAppend(accounts: seq<Account>, a: Account)
    requires DistinctEmails(accounts)
    requires FindAccount(accounts, a.email).None?
    ensures DistinctEmails(accounts + [a])
  {
  }

  /** The built-in accounts have distinct addresses. */
  lemma DemoAccountsDistinct()
    ensures DistinctEmails(DemoAccounts)
  {
    var e0, e1, e2 := "demo@tamj.jp", "test@tamj.jp", "info@tamjump.com";
    assert e0[0] != e1[0] && e0[0] != e2[0] && e1[0] != e2[0];
  }

}
