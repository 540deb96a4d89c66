/**
 * Signing in and guarding the pages: the cashiers' operating hours
 * (12:00 to 05:59 in Cairo), the checks that keep an inactive or
 * out-of-hours cashier out, the e-mail address a username signs in with,
 * and the role checks of `requireRole` and `requireAnyRole`. The backend's
 * answers (the password check, the profile row, the session) are
 * parameters; signing out and redirecting are left to the caller.
 */
module Auth {
  import opened Wrappers
  import opened Civil
  import opened CairoCalendar
  import opened Periods
  import opened Records

  const CashierHoursMessage: string := "خارج مواعيد العمل الرسميه لا يمكنك تسجيل الدخول الان"
  const CashierInactiveMessage: string := "هذا الحساب موقوف حاليا"
  const UsernameRequiredMessage: string := "اسم المستخدم مطلوب."
  const BadCredentialsMessage: string := "اسم المستخدم او كلمة المرور غير صحيحة."
  const MissingProfileMessage: string := "ملف المستخدم غير موجود."
  const EmailDomain: string := "@barbershop.local"

  /** A row of `profiles` as the checks read it: `role`, and `active`, which may be missing. */
  datatype UserProfile = UserProfile(id: Id, role: Option<string>, active: Option<bool>)

  predicate IsCashier(p: UserProfile) {
    p.role == Some(CashierRole)
  }

  // ---------------------------------------------------------------------------
  // Operating hours

  /** `hour * 60 + minute >= 12 * 60 || hour * 60 + minute < 6 * 60`. */
  predicate WithinOperatingHours(hour: int, minute: int) {
    var totalMinutes := hour * 60 + minute;
    totalMinutes >= 12 * 60 || totalMinutes < 6 * 60
  }

  /** `isWithinOperatingHours(now)`, reading the hour and the minute of Cairo's wall clock. */
  predicate IsWithinOperatingHours(now: int, z: Zone) {
    WithinOperatingHours(WallClock(now, z).hour, WallClock(now, z).minute)
  }

  /**
   * On a clock reading the hours are open from 12:00 to 05:59 and closed
   * from 06:00 to 11:59: the boundary minutes fall as stated.
   */
  lemma OperatingHoursOnTheClock(hour: int, minute: int)
    requires 0 <= hour < 24 && 0 <= minute < 60
    ensures WithinOperatingHours(hour, minute) <==> hour >= 12 || hour < 6
    ensures !WithinOperatingHours(6, 0) && !WithinOperatingHours(11, 59)
    ensures WithinOperatingHours(12, 0) && WithinOperatingHours(5, 59)
  {
  }

  /**
   * A cashier may work exactly when less than six hours or at least twelve
   * hours of Cairo's day have passed.
   */
  lemma OperatingHoursOfDay(now: int, z: Zone)
    ensures IsWithinOperatingHours(now, z) <==> MsOfDay(now, z) < 6 * MsPerHour || MsOfDay(now, z) >= 12 * MsPerHour
  {
    HourBefore(now, z, 6);
    HourBefore(now, z, 12);
  }

  /** Every moment of the operating hours lies inside the dashboard's business day, both ends included. */
  lemma OperatingHoursInBusinessDay(now: int, z: Zone)
    requires IsWithinOperatingHours(now, z)
    ensures BusinessDayStart(now, z) <= now <= BusinessDayEnd(now, z)
  {
    OperatingHoursOfDay(now, z);
    BusinessDayProperties(now, z);
  }

  // ---------------------------------------------------------------------------
  // The cashier checks

  /** `enforceCashierHours`: only a cashier is checked, and only against the clock. */
  function EnforceCashierHours(profile: UserProfile, now: int, z: Zone): Outcome<string> {
    if !IsCashier(profile) then Pass
    else if !IsWithinOperatingHours(now, z) then Fail(CashierHoursMessage)
    else Pass
  }

  /** `enforceCashierActive`: only a cashier is checked, and only an `active` that is exactly `false` fails. */
  function EnforceCashierActive(profile: UserProfile): Outcome<string> {
    if !IsCashier(profile) then Pass
    else if profile.active == Some(false) then Fail(CashierInactiveMessage)
    else Pass
  }

  /** `enforceCashierActive(profile); enforceCashierHours(profile);`: the first failure wins. */
  function EnforceCashier(profile: UserProfile, now: int, z: Zone): Outcome<string> {
    var active := EnforceCashierActive(profile);
    if active.Fail? then active else EnforceCashierHours(profile, now, z)
  }

  /**
   * The cashier checks never stop anyone but a cashier; they stop a
   * cashier whose `active` is `false`, with the inactive message even out
   * of hours, and otherwise a cashier out of hours; a missing `active`
   * does not stop anyone.
   */
  lemma EnforceCashierRules(profile: UserProfile, now: int, z: Zone)
    ensures !IsCashier(profile) ==> EnforceCashier(profile, now, z) == Pass
    ensures IsCashier(profile) && profile.active == Some(false) ==> EnforceCashier(profile, now, z) == Fail(CashierInactiveMessage)
    ensures IsCashier(profile) && profile.active != Some(false)
            ==> (EnforceCashier(profile, now, z) == Pass <==> IsWithinOperatingHours(now, z))
    ensures EnforceCashier(profile, now, z).Fail?
            ==> EnforceCashier(profile, now, z).error in {CashierInactiveMessage, CashierHoursMessage}
  {
  }

  // ---------------------------------------------------------------------------
  // The username

  /** The characters `String.prototype.trim` removes: white space and line terminators. */
  predicate IsJsSpace(c: char) {
    var n := c as int;
    (9 <= n <= 13) || n == 32 || n == 0xA0 || n == 0x1680 || (0x2000 <= n <= 0x200A)
    || n == 0x2028 || n == 0x2029 || n == 0x202F || n == 0x205F || n == 0x3000 || n == 0xFEFF
  }

  /** Where the text of `s` starts, looking from `i` on: the first index from `i` that is not white space, else `|s|`. */
  function TextStart(s: string, i: nat): (n: nat)
    requires i <= |s|
    ensures i <= n <= |s|
    ensures forall k :: i <= k < n ==> IsJsSpace(s[k])
    ensures n == |s| || !IsJsSpace(s[n])
    decreases |s| - i
  {
    if i < |s| && IsJsSpace(s[i]) then TextStart(s, i + 1) else i
  }

  /** Where the text of `s` ends, looking back from `j` to no earlier than `lo`: just past the last character that is not white space, else `lo`. */
  function TextEnd(s: string, lo: nat, j: nat): (n: nat)
    requires lo <= j <= |s|
    ensures lo <= n <= j
    ensures forall k :: n <= k < j ==> IsJsSpace(s[k])
    ensures n == lo || !IsJsSpace(s[n - 1])
    decreases j
  {
    if j > lo && IsJsSpace(s[j - 1]) then TextEnd(s, lo, j - 1) else j
  }

  /** `s.trim()`: the part of `s` between its leading and its trailing white space. */
  function Trim(s: string): string {
    var start := TextStart(s, 0);
    s[start..TextEnd(s, start, |s|)]
  }

  /**
   * Trimming keeps a contiguous part of the input that neither starts nor
   * ends with white space, and drops only white space around it; it is
   * empty exactly when the input is white space throughout.
   */
  lemma TrimMeaning(s: string)
    ensures var i, r := TextStart(s, 0), Trim(s);
            && i + |r| <= |s| && r == s[i..i + |r|]
            && (forall k :: 0 <= k < i ==> IsJsSpace(s[k]))
            && (forall k :: i + |r| <= k < |s| ==> IsJsSpace(s[k]))
            && (r == [] || (!IsJsSpace(r[0]) && !IsJsSpace(r[|r| - 1])))
    ensures Trim(s) == [] <==> forall k :: 0 <= k < |s| ==> IsJsSpace(s[k])
  {
    var i := TextStart(s, 0);
    var j := TextEnd(s, i, |s|);
    var r := Trim(s);
    assert r == s[i..j];
    if r != [] {
      assert r[0] == s[i] && r[|r| - 1] == s[j - 1];
    }
  }

  /** The lower-case form of one character; only the letters A to Z change. */
  function LowerChar(c: char): (d: char)
    ensures !('A' <= d <= 'Z')
    ensures 'A' <= c <= 'Z' ==> d as int == c as int + 32 && 'a' <= d <= 'z'
    ensures !('A' <= c <= 'Z') ==> d == c
  {
    if 'A' <= c <= 'Z' then (c as int - 'A' as int + 'a' as int) as char else c
  }

  /** `s.toLowerCase()` on the letters A to Z. */
  function ToLower(s: string): (r: string)
    ensures |r| == |s|
  {
    seq(|s|, i requires 0 <= i < |s| => LowerChar(s[i]))
  }

  /** Lowering turns each capital A to Z into its own small letter, changes nothing else, and a second lowering changes nothing. */
  lemma ToLowerMeaning(s: string)
    ensures forall i :: 0 <= i < |s| ==> !('A' <= ToLower(s)[i] <= 'Z')
    ensures forall i :: 0 <= i < |s| && 'A' <= s[i] <= 'Z' ==> ToLower(s)[i] as int == s[i] as int + 32
    ensures forall i :: 0 <= i < |s| && !('A' <= s[i] <= 'Z') ==> ToLower(s)[i] == s[i]
    ensures ToLower(ToLower(s)) == ToLower(s)
  {
  }

  /** `` `${trimmed.toLowerCase()}@barbershop.local` ``. */
  function LoginEmail(username: string): string {
    ToLower(Trim(username)) + EmailDomain
  }

  /** The address ends in the shop's domain, after the lowered, trimmed username; surrounding white space and case do not change it. */
  lemma LoginEmailMeaning(username: string, other: string)
    ensures LoginEmail(username)[..|LoginEmail(username)| - |EmailDomain|] == ToLower(Trim(username))
    ensures LoginEmail(username)[|LoginEmail(username)| - |EmailDomain|..] == EmailDomain
    ensures Trim(username) == Trim(other) ==> LoginEmail(username) == LoginEmail(other)
  {
  }

  // ---------------------------------------------------------------------------
  // signInWithUsername

  /** What the backend answers: the user id the password check lets in per address, and the profile rows. */
  datatype Backend = Backend(authenticate: string -> Option<Id>, profiles: map<Id, UserProfile>)

  /**
   * `signInWithUsername(username, password)`, the password folded into
   * the backend's check: a blank username, a refused password, a missing
   * profile, then for a cashier the active check and the hours check, each
   * fail with its own message in that order.
   */
  function SignInWithUsername(username: string, backend: Backend, now: int, z: Zone): Result<UserProfile, string> {
    var trimmed := Trim(username);
    if trimmed == [] then Failure(UsernameRequiredMessage)
    else
      var userId := backend.authenticate(LoginEmail(username));
      if userId.None? then Failure(BadCredentialsMessage)
      else if userId.value !in backend.profiles then Failure(MissingProfileMessage)
      else
        var profile := backend.profiles[userId.value];
        var check := EnforceCashier(profile, now, z);
        if check.Fail? then Failure(check.error) else Success(profile)
  }

  /**
   * A blank username is refused before the backend is asked; a signed-in
   * user is the one the address lets in, and is either not a cashier or
   * an active-or-unmarked cashier inside the operating hours.
   */
  lemma SignInRules(username: string, backend: Backend, other: Backend, now: int, z: Zone)
    ensures Trim(username) == [] ==> SignInWithUsername(username, backend, now, z) == Failure(UsernameRequiredMessage)
                                     && SignInWithUsername(username, other, now, z) == Failure(UsernameRequiredMessage)
    ensures SignInWithUsername(username, backend, now, z).Success?
            ==> var p := SignInWithUsername(username, backend, now, z).value;
                && Trim(username) != []
                && backend.authenticate(LoginEmail(username)).Some?
                && (var id := backend.authenticate(LoginEmail(username)).value;
                    id in backend.profiles && backend.profiles[id] == p)
                && (IsCashier(p) ==> p.active != Some(false) && IsWithinOperatingHours(now, z))
  {
    var r := SignInWithUsername(username, backend, now, z);
    if r.Success? {
      EnforceCashierRules(r.value, now, z);
    }
  }

  // ---------------------------------------------------------------------------
  // requireRole and requireAnyRole

  /** The profile a session resolves to, if the session and its profile row exist. */
  function SessionProfile(session: Option<Id>, profiles: map<Id, UserProfile>): Option<UserProfile> {
    if session.Some? && session.value in profiles then Some(profiles[session.value]) else None
  }

  /**
   * `requireRole(requiredRole)`: no session or no profile, a role other
   * than a non-empty required one, or a failed cashier check give `null`
   * (the caller is sent to the login page); otherwise the profile.
   */
  function RequireRole(session: Option<Id>, profiles: map<Id, UserProfile>, requiredRole: Option<string>, now: int, z: Zone): Option<UserProfile> {
    var profile := SessionProfile(session, profiles);
    if profile.None? then None
    else if requiredRole.Some? && requiredRole.value != "" && profile.value.role != requiredRole then None
    else if EnforceCashier(profile.value, now, z).Fail? then None
    else profile
  }

  /** `requireAnyRole(roles)`: as `requireRole`, with the role looked up in a list when one is given. */
  function RequireAnyRole(session: Option<Id>, profiles: map<Id, UserProfile>, roles: Option<seq<string>>, now: int, z: Zone): Option<UserProfile> {
    var profile := SessionProfile(session, profiles);
    if profile.None? then None
    else if roles.Some? && !(profile.value.role.Some? && profile.value.role.value in roles.value) then None
    else if EnforceCashier(profile.value, now, z).Fail? then None
    else profile
  }

  /**
   * A page guarded by a role admits exactly the session's profile when its
   * role is the required one and the cashier checks pass.
   */
  lemma RequireRoleRules(session: Option<Id>, profiles: map<Id, UserProfile>, requiredRole: string, now: int, z: Zone)
    requires requiredRole != ""
    ensures RequireRole(session, profiles, Some(requiredRole), now, z).Some?
            <==> session.Some? && session.value in profiles
                 && profiles[session.value].role == Some(requiredRole)
                 && EnforceCashier(profiles[session.value], now, z) == Pass
    ensures RequireRole(session, profiles, Some(requiredRole), now, z).Some?
            ==> RequireRole(session, profiles, Some(requiredRole), now, z).value == profiles[session.value]
  {
  }

  /**
   * A page guarded by a list of roles admits exactly the session's profile
   * when its role is in the list and the cashier checks pass; the admin
   * role never fails the cashier checks.
   */
  lemma RequireAnyRoleRules(session: Option<Id>, profiles: map<Id, UserProfile>, roles: seq<string>, now: int, z: Zone)
    ensures RequireAnyRole(session, profiles, Some(roles), now, z).Some?
            <==> session.Some? && session.value in profiles
                 && profiles[session.value].role.Some? && profiles[session.value].role.value in roles
                 && EnforceCashier(profiles[session.value], now, z) == Pass
    ensures session.Some? && session.value in profiles && profiles[session.value].role == Some(AdminRole) && AdminRole in roles
            ==> RequireAnyRole(session, profiles, Some(roles), now, z) == Some(profiles[session.value])
  {
  }
}
