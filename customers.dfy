/** The user and account lists of the banking script (`usuarios`,
    `contas`) and the three functions that work on them. */
module Customers {

  datatype Option<T> = None | Some(value: T)

  /** `AGENCIA`: the one branch code every account gets. */
  const Branch: string := "0001"
  /** A CPF is exactly this many digits. */
  const CpfLength: nat := 11

  datatype Address = Address(street: string, neighborhood: string, cityState: string)
  datatype User = User(name: string, birthDate: string, cpf: string, address: Address)
  /** An account holds its branch, its number and its owner; no balance. */
  datatype Account = Account(branch: string, number: nat, user: User)

  /** Stands in for the messages of `criar_usuario`. */
  datatype UserOutcome = Created | InvalidCpf | DuplicateCpf
  /** Stands in for the messages of `criar_conta`. */
  datatype AccountOutcome = Opened(number: nat) | UserNotFound

  /** The characters below U+0080 that Python's `str.strip()` removes:
      tab, line feed, vertical tab, form feed and carriage return
      (U+0009-U+000D), the separators U+001C-U+001F, and space. */
  predicate IsSpace(c: char)
  {
    ('\t' <= c <= '\r') || ('\U{001C}' <= c <= ' ')
  }

  /** The index of the first character at or after `i` that is not
      whitespace, or `|s|` if there is none. */
  function SpanStart(s: string, i: nat): (j: nat)
    requires i <= |s|
    ensures i <= j <= |s|
    ensures forall k :: i <= k < j ==> IsSpace(s[k])
    ensures j == |s| || !IsSpace(s[j])
    decreases |s| - i
  {
    if i < |s| && IsSpace(s[i]) then SpanStart(s, i + 1) else i
  }

  /** The index just past the last character before `j` and at or after
      `lo` that is not whitespace, or `lo` if there is none. */
  function SpanEnd(s: string, lo: nat, j: nat): (e: nat)
    requires lo <= j <= |s|
    ensures lo <= e <= j
    ensures forall k :: e <= k < j ==> IsSpace(s[k])
    ensures e == lo || !IsSpace(s[e - 1])
    decreases j
  {
    if j > lo && IsSpace(s[j - 1]) then SpanEnd(s, lo, j - 1) else j
  }

  /** `str.strip()` with no argument: the input with its leading and
      trailing whitespace cut off, and nothing else. */
  function Strip(s: string): (r: string)
    ensures |r| <= |s|
    ensures r == [] || (!IsSpace(r[0]) && !IsSpace(r[|r| - 1]))
    ensures (s == [] || (!IsSpace(s[0]) && !IsSpace(s[|s| - 1]))) ==> r == s
    ensures var lo := SpanStart(s, 0);
      && lo + |r| <= |s| && r == s[lo..lo + |r|]
      && (forall i :: 0 <= i < lo ==> IsSpace(s[i]))
      && (forall i :: lo + |r| <= i < |s| ==> IsSpace(s[i]))
  {
    var lo := SpanStart(s, 0);
    s[lo..SpanEnd(s, lo, |s|)]
  }

  /** `str.isdigit()` restricted to ASCII: false on the empty string. */
  predicate IsDigits(s: string)
    ensures IsDigits(s) ==> forall i :: 0 <= i < |s| ==> !IsSpace(s[i])
  {
    |s| > 0 && forall i :: 0 <= i < |s| ==> '0' <= s[i] <= '9'
  }

  /** The format check of `criar_usuario`. */
  predicate ValidCpf(cpf: string)
  {
    IsDigits(cpf) && |cpf| == CpfLength
  }

  /** A CPF that passes the format check has no whitespace, so stripping
      it again, as `criar_conta` does, leaves it as it is. */
  lemma ValidCpfIsStripped(cpf: string)
    requires ValidCpf(cpf)
    ensures Strip(cpf) == cpf
  {
    assert !IsSpace(cpf[0]) && !IsSpace(cpf[|cpf| - 1]);
  }

  predicate HasCpf(users: seq<User>, cpf: string)
  {
    exists i :: 0 <= i < |users| && users[i].cpf == cpf
  }

  predicate UniqueCpfs(users: seq<User>)
  {
    forall i, j :: 0 <= i < j < |users| ==> users[i].cpf != users[j].cpf
  }

  /** Accounts are numbered 1, 2, ... in the order they were opened, all
      at the one branch, and each belongs to a registered user. */
  predicate WellNumbered(accounts: seq<Account>, users: seq<User>)
  {
    forall i :: 0 <= i < |accounts| ==>
      accounts[i].number == i + 1 && accounts[i].branch == Branch && accounts[i].user in users
  }

  lemma NumberedAppend(accounts: seq<Account>, users: seq<User>, a: Account)
    requires WellNumbered(accounts, users)
    requires a.number == |accounts| + 1 && a.branch == Branch && a.user in users
    ensures WellNumbered(accounts + [a], users)
  {
    forall i | 0 <= i < |accounts| + 1
      ensures (accounts + [a])[i].number == i + 1
      ensures (accounts + [a])[i].branch == Branch && (accounts + [a])[i].user in users
    {
      if i < |accounts| { assert (accounts + [a])[i] == accounts[i]; }
    }
  }

  /** What `usuarios` and `contas` keep: unique, well-formed CPFs, and
      accounts numbered 1..n that belong to registered users. */
  predicate RegistryInvariant(users: seq<User>, accounts: seq<Account>)
  {
    && UniqueCpfs(users)
    && (forall i :: 0 <= i < |users| ==> ValidCpf(users[i].cpf))
    && WellNumbered(accounts, users)
  }

  /** Appending a user whose CPF is well formed and new keeps the invariant. */
  lemma RegisterKeepsInvariant(users: seq<User>, accounts: seq<Account>, u: User)
    requires RegistryInvariant(users, accounts)
    requires ValidCpf(u.cpf) && !HasCpf(users, u.cpf)
    ensures RegistryInvariant(users + [u], accounts)
  {
    var us := users + [u];
    forall i, j | 0 <= i < j < |us| ensures us[i].cpf != us[j].cpf {
      if j < |users| {
        assert us[i] == users[i] && us[j] == users[j];
      } else {
        assert us[i] == users[i];
      }
    }
    forall i | 0 <= i < |us| ensures ValidCpf(us[i].cpf) {
      if i < |users| { assert us[i] == users[i]; }
    }
    forall i | 0 <= i < |accounts| ensures accounts[i].user in us {
      assert accounts[i].user in users;
    }
  }

  /** A registered CPF, typed in again as it was stored, still names a
      registered user after stripping. */
  lemma StoredCpfIsFound(users: seq<User>, accounts: seq<Account>, cpf: string)
    requires RegistryInvariant(users, accounts)
    ensures HasCpf(users, cpf) ==> HasCpf(users, Strip(cpf))
  {
    if HasCpf(users, cpf) {
      var i :| 0 <= i < |users| && users[i].cpf == cpf;
      ValidCpfIsStripped(users[i].cpf);
    }
  }

  class Registry {
    /** `usuarios`, in registration order */
    var users: seq<User>
    /** `contas`, in opening order */
    var accounts: seq<Account>

    ghost predicate Valid()
      reads this
    {
      RegistryInvariant(users, accounts)
    }

    constructor ()
      ensures Valid() && users == [] && accounts == []
    {
      users, accounts := [], [];
    }

    /** `filtrar_usuario_por_cpf`: the first user with this CPF, if any. */
    method FindUser(cpf: string) returns (found: Option<User>)
      ensures found.None? <==> !HasCpf(users, cpf)
      ensures found.Some? ==>
        exists i :: 0 <= i < |users| && users[i] == found.value && users[i].cpf == cpf
          && forall j :: 0 <= j < i ==> users[j].cpf != cpf
    {
      var i := 0;
      while i < |users|
        invariant 0 <= i <= |users|
        invariant forall j :: 0 <= j < i ==> users[j].cpf != cpf
      {
        if users[i].cpf == cpf {
          return Some(users[i]);
        }
        i := i + 1;
      }
      return None;
    }

    /** `criar_usuario`, with what it reads from the keyboard passed in. */
    method CreateUser(rawCpf: string, name: string, birthDate: string,
                      street: string, neighborhood: string, cityState: string)
      returns (outcome: UserOutcome)
      requires Valid()
      modifies this
      ensures Valid()
      ensures accounts == old(accounts)
      ensures outcome == InvalidCpf <==> !ValidCpf(Strip(rawCpf))
      ensures outcome == DuplicateCpf <==> ValidCpf(Strip(rawCpf)) && HasCpf(old(users), Strip(rawCpf))
      ensures outcome == Created ==>
        users == old(users) + [User(name, birthDate, Strip(rawCpf), Address(street, neighborhood, cityState))]
      ensures outcome != Created ==> users == old(users)
    {
      var cpf := Strip(rawCpf);
      if !IsDigits(cpf) || |cpf| != CpfLength {
        return InvalidCpf;
      }
      var existing := FindUser(cpf);
      if existing.Some? {
        return DuplicateCpf;
      }
      var address := Address(street, neighborhood, cityState);
      var user := User(name, birthDate, cpf, address);
      RegisterKeepsInvariant(users, accounts, user);
      users := users + [user];
      outcome := Created;
    }

    /** `criar_conta`: opens the next-numbered account for a registered user. */
    method CreateAccount(rawCpf: string) returns (outcome: AccountOutcome)
      requires Valid()
      modifies this
      ensures Valid()
      ensures users == old(users)
      ensures outcome == UserNotFound <==> !HasCpf(users, Strip(rawCpf))
      ensures outcome == UserNotFound ==> accounts == old(accounts)
      ensures outcome.Opened? ==>
        && outcome.number == |old(accounts)| + 1
        && exists i :: 0 <= i < |users| && users[i].cpf == Strip(rawCpf)
             && accounts == old(accounts) + [Account(Branch, outcome.number, users[i])]
      ensures outcome.Opened? ==>
        forall i :: 0 <= i < |users| && users[i].cpf == Strip(rawCpf) ==> accounts[|accounts| - 1].user == users[i]
      ensures HasCpf(users, rawCpf) ==> outcome.Opened?
    {
      StoredCpfIsFound(users, accounts, rawCpf);
      var cpf := Strip(rawCpf);
      var user := FindUser(cpf);
      if user.None? {
        return UserNotFound;
      }
      ghost var k :| 0 <= k < |users| && users[k] == user.value && users[k].cpf == cpf;
      var number := |accounts| + 1;
      var account := Account(Branch, number, user.value);
      NumberedAppend(accounts, users, account);
      accounts := accounts + [account];
      outcome := Opened(number);
      assert forall i :: 0 <= i < |users| && users[i].cpf == cpf ==> i == k;
    }
  }

  /** The two CPFs of the registration example: "12345678901" is a
      well-formed CPF and stripping leaves it, "123" is too short. */
  lemma ScenarioCpfs()
    ensures ValidCpf("12345678901") && Strip("12345678901") == "12345678901"
    ensures !ValidCpf(Strip("123"))
  {
    var cpf := "12345678901";
    assert forall i :: 0 <= i < |cpf| ==> '0' <= cpf[i] <= '9';
    assert !IsSpace("123"[0]) && !IsSpace("123"[2]);
  }

  /** Registering the same CPF twice in a fresh registry: a well-formed
      CPF is created and then reported as a duplicate; any other is
      refused as malformed both times. */
  method RegistrationScenario(cpf: string, name: string) returns (first: UserOutcome, second: UserOutcome)
    ensures ValidCpf(Strip(cpf)) ==> first == Created && second == DuplicateCpf
    ensures !ValidCpf(Strip(cpf)) ==> first == InvalidCpf && second == InvalidCpf
  {
    var registry := new Registry();
    first := registry.CreateUser(cpf, name, "01/01/1990", "Rua A", "Centro", "Belo Horizonte/MG");
    if first == Created {
      assert registry.users[0].cpf == Strip(cpf);
    }
    second := registry.CreateUser(cpf, name, "01/01/1990", "Rua A", "Centro", "Belo Horizonte/MG");
  }
}
