/**
 * Uniqueness-enforcing domain services over the in-memory repositories:
 * companies keyed by their CNPJ string, and user–company links with at most
 * one link per (user, company) pair.
 */
module CompanyDomain {
  import opened Common

  // ---------------------------------------------------------------------
  // Companies

  /** The fields `create_company` passes to the Company constructor; `extra` holds the keyword extras. */
  datatype Company = Company(
    cnpj: string,
    legalName: string,
    tradeName: Option<string>,
    openingDate: Option<string>,
    extra: map<string, string>)

  /** The in-memory company repository: a dictionary from the raw CNPJ string. */
  class FakeCompanyRepository {
    var byCnpj: map<string, Company>

    constructor ()
      ensures byCnpj == map[]
    {
      byCnpj := map[];
    }

    predicate ExistsByCnpj(cnpj: string)
      reads this
    {
      cnpj in byCnpj
    }

    /** `save`: stored under its CNPJ, replacing an earlier company with that CNPJ. */
    method Save(company: Company) returns (saved: Company)
      modifies this
      ensures byCnpj == old(byCnpj)[company.cnpj := company] && saved == company
    {
      byCnpj := byCnpj[company.cnpj := company];
      saved := company;
    }
  }

  /** Storing under a key: a present key is replaced and the count stays, a new key adds one; other keys are untouched. */
  lemma StoreUnderCnpj(m: map<string, Company>, c: Company)
    ensures c.cnpj in m ==> |m[c.cnpj := c].Keys| == |m.Keys|
    ensures c.cnpj !in m ==> |m[c.cnpj := c].Keys| == |m.Keys| + 1
    ensures m[c.cnpj := c][c.cnpj] == c
    ensures forall k :: k in m && k != c.cnpj ==> k in m[c.cnpj := c] && m[c.cnpj := c][k] == m[k]
  {
    if c.cnpj in m {
      assert m[c.cnpj := c].Keys == m.Keys;
    } else {
      assert m[c.cnpj := c].Keys == m.Keys + {c.cnpj};
    }
  }

  const DuplicateCnpj := "Já existe uma empresa com este CNPJ."

  class CompanyDomainService {
    const repository: FakeCompanyRepository

    constructor (repository: FakeCompanyRepository)
      ensures this.repository == repository
    {
      this.repository := repository;
    }

    /** `create_company`: refused when the CNPJ string is already stored; otherwise saved and returned. */
    method CreateCompany(cnpj: string, legalName: string, tradeName: Option<string>,
                         openingDate: Option<string>, extra: map<string, string>) returns (r: Result<Company>)
      modifies repository
      ensures cnpj in old(repository.byCnpj) ==> r == Err(DuplicateCnpj) && repository.byCnpj == old(repository.byCnpj)
      ensures cnpj !in old(repository.byCnpj) ==>
        var c := Company(cnpj, legalName, tradeName, openingDate, extra);
        r == Ok(c) && repository.byCnpj == old(repository.byCnpj)[cnpj := c]
    {
      if repository.ExistsByCnpj(cnpj) {
        return Err(DuplicateCnpj);
      }
      var company := Company(cnpj, legalName, tradeName, openingDate, extra);
      var saved := repository.Save(company);
      r := Ok(saved);
    }
  }

  /** A second create with the same CNPJ fails, whatever its other fields, and the first company stays stored. */
  method SecondCreateWithSameCnpjFails(svc: CompanyDomainService, cnpj: string,
                                       name1: string, name2: string, extra2: map<string, string>)
    requires cnpj !in svc.repository.byCnpj
    modifies svc.repository
    ensures cnpj in svc.repository.byCnpj && svc.repository.byCnpj[cnpj].legalName == name1
  {
    var first := svc.CreateCompany(cnpj, name1, None, None, map[]);
    assert first.Ok? && first.value.legalName == name1;
    var second := svc.CreateCompany(cnpj, name2, Some(name2), None, extra2);
    assert second == Err(DuplicateCnpj);
  }

  /** Uniqueness compares raw strings: the bare digits of a stored punctuated CNPJ are accepted as new. */
  method PunctuationMakesADifferentCnpj(svc: CompanyDomainService)
    requires svc.repository.byCnpj == map[]
    modifies svc.repository
    ensures |svc.repository.byCnpj.Keys| == 2
  {
    var a := svc.CreateCompany("12.345.678/0001-95", "Primeira LTDA", None, None, map[]);
    var b := svc.CreateCompany("12345678000195", "Segunda LTDA", None, None, map[]);
    assert b.Ok?;
    assert svc.repository.byCnpj.Keys == {"12.345.678/0001-95", "12345678000195"};
  }

  // ---------------------------------------------------------------------
  // User–company links

  const Master := "master"
  const Admin := "admin"
  const RegularUser := "user"

  /** A link; users and companies are identified by their primary keys, as Django compares model instances. */
  datatype UserCompany = UserCompany(user: nat, company: nat, role: string)
  {
    predicate IsMaster()
    {
      role == Master
    }

    predicate CanManageUsers()
    {
      role in [Master, Admin]
    }
  }

  /** A master can manage users; a plain user cannot; an admin can without being master. */
  lemma RolePermissions(link: UserCompany)
    ensures link.IsMaster() ==> link.CanManageUsers()
    ensures link.role == RegularUser ==> !link.CanManageUsers() && !link.IsMaster()
    ensures link.role == Admin ==> link.CanManageUsers() && !link.IsMaster()
    ensures link.CanManageUsers() <==> link.role == Master || link.role == Admin
  {
  }

  /** At most one link per (user, company) pair. */
  predicate UniquePairs(data: seq<UserCompany>)
  {
    forall i, j :: 0 <= i < j < |data| ==> (data[i].user, data[i].company) != (data[j].user, data[j].company)
  }

  predicate Linked(data: seq<UserCompany>, user: nat, company: nat)
  {
    exists i :: 0 <= i < |data| && data[i].user == user && data[i].company == company
  }

  const DuplicateLinkInRepository := "Vínculo duplicado: este usuário já está associado a esta empresa."
  const DuplicateLink := "O vínculo entre este usuário e empresa já existe."

  /** The in-memory link repository: a list with a duplicate check on save. */
  class FakeUserCompanyRepository {
    var data: seq<UserCompany>

    constructor ()
      ensures data == [] && Valid()
    {
      data := [];
    }

    predicate Valid()
      reads this
    {
      UniquePairs(data)
    }

    predicate Exists(user: nat, company: nat)
      reads this
    {
      Linked(data, user, company)
    }

    /** `save`: refused for a stored pair, otherwise appended at the end. */
    method Save(link: UserCompany) returns (r: Result<UserCompany>)
      requires Valid()
      modifies this
      ensures Valid()
      ensures Linked(old(data), link.user, link.company) ==>
        r == Err(DuplicateLinkInRepository) && data == old(data)
      ensures !Linked(old(data), link.user, link.company) ==>
        r == Ok(link) && data == old(data) + [link]
    {
      if Exists(link.user, link.company) {
        return Err(DuplicateLinkInRepository);
      }
      data := data + [link];
      r := Ok(link);
    }

    /** `all`: the links in insertion order. */
    function All(): (links: seq<UserCompany>)
      reads this
      ensures links == data
    {
      data
    }
  }

  class UserCompanyDomainService {
    const repository: FakeUserCompanyRepository

    constructor (repository: FakeUserCompanyRepository)
      ensures this.repository == repository
    {
      this.repository := repository;
    }

    /** `link_user_to_company`: refused for a linked pair whatever the role; `role` defaults to "user". */
    method LinkUserToCompany(user: nat, company: nat, role: string := RegularUser) returns (r: Result<UserCompany>)
      requires repository.Valid()
      modifies repository
      ensures repository.Valid()
      ensures Linked(old(repository.data), user, company) ==>
        r == Err(DuplicateLink) && repository.data == old(repository.data)
      ensures !Linked(old(repository.data), user, company) ==>
        r == Ok(UserCompany(user, company, role)) && repository.data == old(repository.data) + [UserCompany(user, company, role)]
    {
      if repository.Exists(user, company) {
        return Err(DuplicateLink);
      }
      r := repository.Save(UserCompany(user, company, role));
    }
  }

  /** Appending a pair that is not linked keeps the pairs unique and makes the pair linked. */
  lemma AppendUnlinkedKeepsUnique(data: seq<UserCompany>, link: UserCompany)
    requires UniquePairs(data) && !Linked(data, link.user, link.company)
    ensures UniquePairs(data + [link]) && Linked(data + [link], link.user, link.company)
  {
    var after := data + [link];
    assert after[|data|] == link;
    forall i, j | 0 <= i < j < |after|
      ensures (after[i].user, after[i].company) != (after[j].user, after[j].company)
    {
      if j == |data| {
        assert after[i] == data[i];
      } else {
        assert after[i] == data[i] && after[j] == data[j];
      }
    }
  }

  /** Linking twice with different roles: the second is refused and only the first link is stored. */
  method DuplicateLinkRejected(svc: UserCompanyDomainService, user: nat, company: nat)
    requires svc.repository.Valid() && svc.repository.data == []
    modifies svc.repository
    ensures svc.repository.data == [UserCompany(user, company, Master)]
  {
    var first := svc.LinkUserToCompany(user, company, Master);
    var stored := [UserCompany(user, company, Master)];
    assert !Linked([], user, company);
    assert svc.repository.data == stored;
    assert stored[0].user == user && stored[0].company == company;
    assert Linked(stored, user, company);
    var second := svc.LinkUserToCompany(user, company, Admin);
    assert second == Err(DuplicateLink);
  }
}
