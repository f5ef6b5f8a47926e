/**
 * The admin's user-creation form: the password strength meter and its colour bands, the
 * required-field check before `POST /api/users`, and the role badge helpers.
 *
 * Strength is kept in half points (twice the percentage shown), so the 12.5-point steps of
 * the meter are whole numbers: 25 points are 50 half points, 12.5 points are 25, 100 is 200.
 */
module RoleCreation {
  import opened Wrappers
  import opened JsText

  /**
   * `/[a-z]/.test(p)`, `/[A-Z]/.test(p)`, `/[0-9]/.test(p)`, `/[^a-zA-Z0-9]/.test(p)`. The
   * expressions have no `u` flag, so they see UTF-16 code units; a surrogate is never a letter
   * or digit, so testing whole characters gives the same answers.
   */
  predicate IsLower(c: char) { 'a' <= c <= 'z' }
  predicate IsUpper(c: char) { 'A' <= c <= 'Z' }
  predicate IsDigit(c: char) { '0' <= c <= '9' }

  predicate HasLower(p: string) { exists i :: 0 <= i < |p| && IsLower(p[i]) }
  predicate HasUpper(p: string) { exists i :: 0 <= i < |p| && IsUpper(p[i]) }
  predicate HasDigit(p: string) { exists i :: 0 <= i < |p| && IsDigit(p[i]) }
  predicate HasSymbol(p: string) { exists i :: 0 <= i < |p| && !IsLower(p[i]) && !IsUpper(p[i]) && !IsDigit(p[i]) }

  /** The half points one criterion contributes when it holds. */
  function Award(holds: bool, halfPoints: nat): nat {
    if holds then halfPoints else 0
  }

  /**
   * `calculatePasswordStrength(p)` in half points: 0 for the empty password; otherwise 25
   * points for a length (`p.length`, in UTF-16 code units) of at least 8, 25 more for at least 12, 25 for both a lower-case and an
   * upper-case letter, 12.5 for a digit and 12.5 for any other character, capped at 100.
   */
  function Strength(p: string): (s: nat)
    ensures p == "" ==> s == 0
    ensures s <= 200 && s % 25 == 0
    ensures Utf16Length(p) >= 12 ==> s >= 100
    ensures Utf16Length(p) < 8 ==> s <= 100
    ensures s == 200 <==> Utf16Length(p) >= 12 && HasLower(p) && HasUpper(p) && HasDigit(p) && HasSymbol(p)
  {
    if p == "" then 0
    else
      var sum := Award(Utf16Length(p) >= 8, 50) + Award(Utf16Length(p) >= 12, 50) + Award(HasLower(p) && HasUpper(p), 50)
                 + Award(HasDigit(p), 25) + Award(HasSymbol(p), 25);
      Min(sum, 200)
  }

  /**
   * A character outside the Basic Multilingual Plane counts twice towards the length, as its
   * surrogate pair does in `p.length`: four emoji are eight code units, which earns the
   * length award, and with the symbol award the meter shows 37.5, "medium".
   */
  lemma {:induction false} AstralCharactersCountTwice()
    ensures var p := ['\U{1F600}', '\U{1F600}', '\U{1F600}', '\U{1F600}'];
            Utf16Length(p) == 8 && Strength(p) == 75 && StrengthBand(Strength(p)) == Medium
  {
    var c := '\U{1F600}';
    var p := [c, c, c, c];
    assert p[1..] == [c, c, c] && p[1..][1..] == [c, c] && p[1..][1..][1..] == [c];
    assert Utf16Length([c]) == 2 by { assert [c][1..] == []; }
    assert !IsLower(p[0]) && !IsUpper(p[0]) && !IsDigit(p[0]);
    assert HasSymbol(p);
    assert !HasLower(p) && !HasDigit(p);
  }

  /** `Math.min`. */
  function Min(a: nat, b: nat): nat {
    if a < b then a else b
  }

  /** The cap `Math.min(strength, 100)` never takes effect: the five criteria add up to 100 at most. */
  lemma CapNeverBinds(p: string)
    requires p != ""
    ensures Strength(p) == Award(Utf16Length(p) >= 8, 50) + Award(Utf16Length(p) >= 12, 50) + Award(HasLower(p) && HasUpper(p), 50)
                           + Award(HasDigit(p), 25) + Award(HasSymbol(p), 25)
  {
  }

  /** The meter's colour classes. */
  datatype Band = Weak | Medium | Strong | VeryStrong

  function Rank(b: Band): nat {
    match b
    case Weak => 0
    case Medium => 1
    case Strong => 2
    case VeryStrong => 3
  }

  /** `getPasswordStrengthColor()`: below 30 weak, below 60 medium, below 80 strong, else very strong. */
  function StrengthBand(halfPoints: int): (b: Band)
    ensures b == Weak <==> halfPoints < 60
    ensures b == Medium <==> 60 <= halfPoints < 120
    ensures b == Strong <==> 120 <= halfPoints < 160
    ensures b == VeryStrong <==> 160 <= halfPoints
  {
    if halfPoints < 60 then Weak
    else if halfPoints < 120 then Medium
    else if halfPoints < 160 then Strong
    else VeryStrong
  }

  /** A stronger password never gets a weaker colour. */
  lemma BandMonotone(a: int, b: int)
    requires a <= b
    ensures Rank(StrengthBand(a)) <= Rank(StrengthBand(b))
  {
  }

  /** An empty password is weak; one of twelve characters or more is at least medium. */
  lemma BandOfLength(p: string)
    ensures p == "" ==> StrengthBand(Strength(p)) == Weak
    ensures Utf16Length(p) >= 12 ==> Rank(StrengthBand(Strength(p))) >= Rank(Medium)
  {
  }

  /** `getRoleIcon(role)`: only "Admin" gets the shield, every other role the tie. */
  function RoleIcon(role: string): (icon: string)
    ensures icon == "fa-user-shield" <==> role == "Admin"
    ensures icon == "fa-user-tie" <==> role != "Admin"
  {
    if role == "Admin" then "fa-user-shield" else "fa-user-tie"
  }

  /** `getRoleColor(role)`: "admin" for "Admin"; "supervisor" for every other role, "Floor attendant" included. */
  function RoleColor(role: string): (color: string)
    ensures color == "admin" <==> role == "Admin"
    ensures color == "supervisor" <==> role != "Admin"
  {
    if role == "Admin" then "admin" else "supervisor"
  }

  /** The request body of `POST /api/users`. */
  datatype UserForm = UserForm(username: string, password: string, role: string)

  const EmptyForm: UserForm := UserForm("", "", "")

  /** `!formData.username || !formData.password || !formData.role`: an empty string is falsy. */
  predicate Complete(f: UserForm) {
    f.username != "" && f.password != "" && f.role != ""
  }

  class RoleForm {
    var formData: UserForm
    /** In half points, as `Strength` gives it. */
    var passwordStrength: nat
    var isCreating: bool

    constructor ()
      ensures formData == EmptyForm && passwordStrength == 0 && !isCreating
    {
      formData, passwordStrength, isCreating := EmptyForm, 0, false;
    }

    /** The accumulation `calculatePasswordStrength` performs on its local `strength`. */
    static method CalculatePasswordStrength(password: string) returns (strength: nat)
      ensures strength == Strength(password)
    {
      if password == "" {
        return 0;
      }
      var sum := 0;
      var length := Utf16Length(password);
      if length >= 8 { sum := sum + 50; }
      if length >= 12 { sum := sum + 50; }
      if HasLower(password) && HasUpper(password) { sum := sum + 50; }
      if HasDigit(password) { sum := sum + 25; }
      if HasSymbol(password) { sum := sum + 25; }
      strength := Min(sum, 200);
    }

    /** `handlePasswordChange`: stores the password and recomputes the meter. */
    method HandlePasswordChange(password: string)
      modifies this
      ensures formData == old(formData).(password := password)
      ensures passwordStrength == Strength(password) && isCreating == old(isCreating)
    {
      formData := formData.(password := password);
      passwordStrength := CalculatePasswordStrength(password);
    }

    /**
     * `handleSubmit`: an incomplete form sends nothing and changes nothing; a complete one is
     * sent, and on success the form and the meter are reset. `isCreating` is false afterwards
     * on every path.
     */
    method HandleSubmit(outcome: Result<()>) returns (sent: Option<UserForm>)
      modifies this
      ensures !Complete(old(formData)) ==>
                sent.None? && formData == old(formData) && passwordStrength == old(passwordStrength)
                && isCreating == old(isCreating)
      ensures Complete(old(formData)) ==> sent == Some(old(formData)) && !isCreating
      ensures Complete(old(formData)) && outcome.Ok? ==> formData == EmptyForm && passwordStrength == 0
      ensures Complete(old(formData)) && outcome.Err? ==>
                formData == old(formData) && passwordStrength == old(passwordStrength)
    {
      if formData.username == "" || formData.password == "" || formData.role == "" {
        return None;
      }
      isCreating := true;
      sent := Some(formData);
      if outcome.Ok? {
        formData := EmptyForm;
        passwordStrength := 0;
      }
      isCreating := false;
    }
  }
}
