/**
 * The user domain: the frozen CPF and CNPJ value objects, the user's role
 * rules (accountants need a CRC registration), the CPF/CNPJ field format,
 * the in-memory user repository and the user domain service.
 */
module UserDomain {
  import opened Common
  import opened CompanyValidators

  // ---------------------------------------------------------------------
  // Value objects

  /** `^\d{3}\.?\d{3}\.?\d{3}-?\d{2}$` */
  function CpfPattern(): seq<Tok>
  {
    Grp(3, '.', Grp(3, '.', Grp(3, '-', DigitRun(2))))
  }

  lemma CpfPatternFacts()
    ensures DigitToks(CpfPattern()) == 11 && SeparatorsNonDigit(CpfPattern())
  {
    var t0 := DigitRun(2);
    DigitToksRun(2);
    assert DigitToks(t0) == 2 && SeparatorsNonDigit(t0);
    var t1 := Grp(3, '-', t0);
    GrpFacts(3, '-', t0);
    assert DigitToks(t1) == 5 && SeparatorsNonDigit(t1);
    var t2 := Grp(3, '.', t1);
    GrpFacts(3, '.', t1);
    assert DigitToks(t2) == 8 && SeparatorsNonDigit(t2);
    GrpFacts(3, '.', t2);
    assert CpfPattern() == Grp(3, '.', t2);
  }

  /** A frozen CPF: its value never changes once built. */
  datatype Cpf = Cpf(value: string)

  /** A frozen CNPJ: its value never changes once built. */
  datatype Cnpj = Cnpj(value: string)

  /** `CPF(value)`: the format check of `__post_init__`; no check digits, no normalisation. */
  function MakeCpf(value: string): (r: Result<Cpf>)
    ensures r.Ok? <==> Match(value, CpfPattern())
    ensures r.Ok? ==> r.value.value == value
    ensures r.Err? ==> r.message == "CPF inválido."
  {
    if Match(value, CpfPattern()) then Ok(Cpf(value)) else Err("CPF inválido.")
  }

  /** `CNPJ(value)`: the format check of `__post_init__`; no check digits, no normalisation. */
  function MakeCnpj(value: string): (r: Result<Cnpj>)
    ensures r.Ok? <==> Match(value, CnpjPattern())
    ensures r.Ok? ==> r.value.value == value
    ensures r.Err? ==> r.message == "CNPJ inválido."
  {
    if Match(value, CnpjPattern()) then Ok(Cnpj(value)) else Err("CNPJ inválido.")
  }

  /** Every valid CPF holds exactly 11 digits. */
  lemma ValidCpfHasElevenDigits(value: string)
    requires MakeCpf(value).Ok?
    ensures |OnlyDigits(value)| == 11
  {
    CpfPatternFacts();
    MatchDigitCount(value, CpfPattern());
  }

  /** Every valid CNPJ holds exactly 14 digits. */
  lemma ValidCnpjHasFourteenDigits(value: string)
    requires MakeCnpj(value).Ok?
    ensures |OnlyDigits(value)| == 14
  {
    CnpjPatternFacts();
    MatchDigitCount(value, CnpjPattern());
  }

  /** The value object checks only the shape: a CNPJ with wrong check digits is still built. */
  lemma CnpjObjectIgnoresCheckDigits(v: string)
    requires v == ExampleCnpj
    ensures MakeCnpj(v).Ok? && ValidateCnpj(Some(v)).Rejected?
  {
    ExampleCnpjShape(v);
    ExampleCnpjRejectedAsWritten(v);
  }

  /** The `cpf_cnpj` field's validator: the CPF shape or the CNPJ shape. */
  predicate CpfCnpjValid(s: string)
  {
    Match(s, CpfPattern()) || Match(s, CnpjPattern())
  }

  /** A valid `cpf_cnpj` carries 11 digits (a CPF) or 14 (a CNPJ), and both value objects' inputs pass it. */
  lemma CpfCnpjDigits(s: string)
    ensures CpfCnpjValid(s) ==> |OnlyDigits(s)| == 11 || |OnlyDigits(s)| == 14
    ensures MakeCpf(s).Ok? || MakeCnpj(s).Ok? <==> CpfCnpjValid(s)
  {
    if Match(s, CpfPattern()) {
      ValidCpfHasElevenDigits(s);
    } else if Match(s, CnpjPattern()) {
      ValidCnpjHasFourteenDigits(s);
    }
  }

  // ---------------------------------------------------------------------
  // Users

  const Accountant := "accountant"
  const Client := "client"
  const Staff := "staff"

  const CrcRequired := "Contadores devem possuir um registro CRC."

  /** A user; its role is the one field the domain changes. */
  class User {
    const email: string
    const cpfCnpj: string
    const crcNumber: Option<string>
    var role: string

    /** A new user gets the default role "client". */
    constructor (email: string, cpfCnpj: string, crcNumber: Option<string>)
      ensures this.email == email && this.cpfCnpj == cpfCnpj && this.crcNumber == crcNumber
      ensures role == Client
    {
      this.email := email;
      this.cpfCnpj := cpfCnpj;
      this.crcNumber := crcNumber;
      role := Client;
    }

    predicate IsAccountant()
      reads this
    {
      role == Accountant
    }

    /** `validate_crc`: the error it raises, if any. */
    function ValidateCrc(): (err: Option<string>)
      reads this
      ensures err.Some? <==> IsAccountant() && !Truthy(crcNumber)
      ensures err.Some? ==> err.value == CrcRequired
    {
      if role == Accountant && !Truthy(crcNumber) then Some(CrcRequired) else None
    }
  }

  /** A new user is not an accountant and passes the CRC check. */
  method NewUserPassesCrc(email: string, cpfCnpj: string, crc: Option<string>) returns (u: User)
    ensures fresh(u) && u.role == Client && !u.IsAccountant() && u.ValidateCrc() == None
  {
    u := new User(email, cpfCnpj, crc);
  }

  /** The in-memory user repository: an append-only list. */
  class FakeUserRepository {
    var users: seq<User>

    constructor ()
      ensures users == []
    {
      users := [];
    }

    predicate ExistsByEmail(email: string)
      reads this
    {
      exists i :: 0 <= i < |users| && users[i].email == email
    }

    /** `save`: appended at the end, with no duplicate check. */
    method Save(user: User) returns (saved: User)
      modifies this
      ensures users == old(users) + [user] && saved == user
    {
      users := users + [user];
      saved := user;
    }
  }

  /** Saving a user makes its email known, and every earlier user is kept, in order. */
  lemma SaveMakesEmailKnown(before: seq<User>, user: User)
    ensures var after := before + [user];
      (exists i :: 0 <= i < |after| && after[i].email == user.email) &&
      after[..|before|] == before
  {
    var after := before + [user];
    assert after[|before|] == user;
  }

  /** Two users with the same email can both be stored. */
  method SaveAllowsDuplicateEmails(repo: FakeUserRepository, a: User, b: User)
    requires a.email == b.email
    modifies repo
    ensures |repo.users| == |old(repo.users)| + 2
    ensures repo.users[|repo.users| - 2].email == repo.users[|repo.users| - 1].email
  {
    var _ := repo.Save(a);
    var _ := repo.Save(b);
  }

  const EmailTaken := "E-mail já cadastrado."
  const CpfCnpjTaken := "CPF/CNPJ já cadastrado."
  const CrcRequiredForRole := "Contadores devem possuir CRC."

  /** `can_create_user` over the stored users: email clash first, then CPF/CNPJ clash. */
  function CanCreateUser(users: seq<User>, email: string, cpfCnpj: string): (r: Result<bool>)
    ensures r == Ok(true) <==>
      (forall i :: 0 <= i < |users| ==> users[i].email != email && users[i].cpfCnpj != cpfCnpj)
    ensures r.Err? && r.message == EmailTaken <==> exists i :: 0 <= i < |users| && users[i].email == email
    ensures r.Err? && r.message == CpfCnpjTaken <==>
      (forall i :: 0 <= i < |users| ==> users[i].email != email) &&
      (exists i :: 0 <= i < |users| && users[i].cpfCnpj == cpfCnpj)
    ensures r.Ok? ==> r.value
  {
    if exists i :: 0 <= i < |users| && users[i].email == email then Err(EmailTaken)
    else if exists i :: 0 <= i < |users| && users[i].cpfCnpj == cpfCnpj then Err(CpfCnpjTaken)
    else Ok(true)
  }

  /**
   * `assign_role`: an accountant role without a CRC raises and leaves the
   * role alone; any other request sets the role.
   */
  method AssignRole(user: User, newRole: string) returns (r: Result<User>)
    modifies user
    ensures newRole == Accountant && !Truthy(user.crcNumber) ==> r == Err(CrcRequiredForRole) && user.role == old(user.role)
    ensures !(newRole == Accountant && !Truthy(user.crcNumber)) ==> r == Ok(user) && user.role == newRole
    ensures r.Ok? ==> user.ValidateCrc() == None
  {
    if newRole == Accountant && !Truthy(user.crcNumber) {
      return Err(CrcRequiredForRole);
    }
    user.role := newRole;
    r := Ok(user);
  }
}
