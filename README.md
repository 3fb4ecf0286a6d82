# meu_banco in Dafny

A model of `meu_banco.py`, a single-session console banking script, and proofs about it.
The script keeps one global ledger: the balance `saldo`, the statement `extrato`, the withdrawal counter `numero_saques` and the transaction counter `transacoes_hoje`.
It also keeps two global lists, the users `usuarios` and the accounts `contas`.
Accounts hold no balance. Deposits and withdrawals always act on the one global balance.

The model has three modules:

- `LedgerSpec` (ledger_spec.dfy) gives the ledger as values: a `State` of the four globals, a `Step` for one deposit or withdrawal request, and a `Run` for any sequence of requests. It proves the ledger invariant and the properties of the menu's rules.
- `Ledger` (ledger.dfy) holds the class `Bank`. Its fields are the four globals. Its methods `Deposit`, `Withdraw` and `Statement` are options 1, 2 and 3 of the menu loop, and each is proved to agree with `LedgerSpec.Step`/`Report` and to keep the invariant.
- `Customers` (customers.dfy) holds the class `Registry`. Its fields are the two lists. Its methods are `filtrar_usuario_por_cpf`, `criar_usuario` and `criar_conta`, and they keep CPFs unique and valid and accounts numbered 1..n.

Amounts are Dafny `real` values. Every message the script prints after an operation becomes a value of an outcome datatype. Anything the script reads with `input()` becomes a method parameter.

A withdrawal is checked in the order of meu_banco.py:119-125: the balance, then the per-withdrawal limit, then the withdrawal count, then that the amount is positive.
So withdrawing 600 from an empty balance reports insufficient funds, not the limit (`LedgerSpec.ScenarioOverLimit`).
Also, the "daily" counters never reset; they last for the whole process, as in the code.

## Model

| member | source | states |
|---|---|---|
| `LedgerSpec.DepositOutcome` | meu_banco.py:98-111 | A deposit succeeds iff the transaction cap is not reached and the amount is positive. Otherwise it reports the cap if the cap is reached, else an invalid amount. |
| `LedgerSpec.WithdrawOutcome` | meu_banco.py:98-132 | A withdrawal succeeds iff the cap is not reached, amount <= balance, amount <= 500, fewer than 3 withdrawals were made, and amount > 0. It reports the cap iff the transaction counter is at 10 or more. Each other outcome is reported iff every earlier check passes and its own fails, in this order: insufficient balance, per-withdrawal limit, withdrawal count, then a non-positive amount (invalid amount). |
| `LedgerSpec.Step` | meu_banco.py:102-132 | A rejected request leaves the whole state unchanged. A successful one appends exactly one entry of its kind and amount, adds 1 to the transaction counter, and changes the balance by the amount. Only a withdrawal also adds 1 to the withdrawal counter. |
| `LedgerSpec.Run` | meu_banco.py:92-132 | Running a sequence of requests never removes statement entries: the old statement is a prefix of the new one, and it grows by at most one entry per request. |
| `LedgerSpec.Outcomes` | meu_banco.py:92-132 | One outcome per request. The i-th outcome is the one `Step` reports for request i in the state reached by running the first i requests. |
| `LedgerSpec.Count` | meu_banco.py:117 | The number of entries of a kind never exceeds the statement length. |
| `LedgerSpec.TotalAppend` | meu_banco.py:106-107 | Appending an entry adds its amount to the total of its kind and nothing to the other kind. |
| `LedgerSpec.CountAppend` | meu_banco.py:127-128 | Appending an entry adds one to the count of its kind only. |
| `LedgerSpec.StepPreservesInvariant` | meu_banco.py:105-130 | One deposit or withdrawal keeps the invariant. The invariant: balance >= 0; withdrawals <= 3; transactions <= 10; transactions == statement length; withdrawals == number of Withdrawal entries; balance == Deposit total minus Withdrawal total; every entry amount > 0. |
| `LedgerSpec.RunPreservesInvariant` | meu_banco.py:92-132 | Any sequence of requests from a state satisfying the invariant ends in a state satisfying it. |
| `LedgerSpec.InvariantFromStart` | meu_banco.py:11-15 | The initial globals satisfy the invariant, so it holds after any sequence of deposits and withdrawals. |
| `LedgerSpec.LogRecordsSuccesses` | meu_banco.py:105-132 | The statement is append-only: the old statement is a prefix of the new one. It grows by exactly the number of requests that reported success. |
| `LedgerSpec.CapIsFinal` | meu_banco.py:98-100 | Once the transaction counter reaches 10, every later request reports the cap and the state never changes again. |
| `LedgerSpec.WithdrawalCountIsFinal` | meu_banco.py:117-124 | After three successful withdrawals, no withdrawal of any amount succeeds. |
| `LedgerSpec.NonPositiveAtCountReportsCount` | meu_banco.py:119-132 | Once the withdrawal count is reached, a non-positive amount reports the count error, not an invalid amount. This holds because the balance is never negative. |
| `LedgerSpec.Report` | meu_banco.py:134-138 | The statement view shows the balance. It is the "no movements" notice iff the statement is empty; otherwise it lists exactly the statement's entries. |
| `LedgerSpec.ScenarioDepositThenWithdraw` | meu_banco.py:102-132 | Deposit 100, withdraw 50, withdraw 1000 reports Ok, Ok, insufficient funds, and leaves balance 50. |
| `LedgerSpec.ScenarioFourthWithdrawal` | meu_banco.py:113-130 | From 1000, three withdrawals of 10 succeed, the fourth reports the withdrawal count, and the balance is 970. |
| `LedgerSpec.ScenarioOverLimit` | meu_banco.py:119-122 | Withdrawing 600 from 1000 reports the per-withdrawal limit. Withdrawing 600 from 0 reports insufficient funds. |
| `Ledger.Bank.constructor` | meu_banco.py:11-15 | The globals start at balance 0, an empty statement and both counters 0, and satisfy the invariant. |
| `Ledger.Bank.Deposit` | meu_banco.py:98-111 | Option 1. It reports `DepositOutcome` and changes the fields exactly as `Step` does. On success the balance rises by the amount, one Deposit entry is appended, and the transaction counter rises by 1. A rejection changes nothing. The invariant is kept. |
| `Ledger.Bank.Withdraw` | meu_banco.py:98-132 | Option 2. It reports `WithdrawOutcome` and changes the fields exactly as `Step` does. On success the balance falls by the amount, one Withdrawal entry is appended, and both counters rise by 1. A rejection changes nothing. The invariant is kept. |
| `Ledger.Bank.Statement` | meu_banco.py:134-138 | Option 3 reads the statement and the balance and returns `Report` of the current globals. |
| `Ledger.SessionScenario` | meu_banco.py:102-132 | Through the class: deposit 100, withdraw 50, withdraw 1000 reports Ok, Ok, insufficient funds, and leaves balance 50. |
| `Customers.SpanStart` | meu_banco.py:28 | The index of the first non-whitespace character at or after i, or the length if there is none. Everything skipped is whitespace. |
| `Customers.SpanEnd` | meu_banco.py:28 | The index just past the last non-whitespace character in [lo, j), or lo if there is none. Everything skipped is whitespace. |
| `Customers.Strip` | meu_banco.py:28 | The result is the contiguous slice of the input that starts after the leading whitespace. Everything before and after the slice is whitespace, and the result neither starts nor ends with whitespace. An input with no whitespace at either end is returned unchanged. |
| `Customers.IsDigits` | meu_banco.py:30 | The `isdigit` test: the string is non-empty and every character is an ASCII digit. A string that passes contains no whitespace. |
| `Customers.ValidCpfIsStripped` | meu_banco.py:28-30 | A CPF that passes the format check (11 digits) is left unchanged by stripping. |
| `Customers.RegisterKeepsInvariant` | meu_banco.py:30-56 | Appending a user whose CPF is well formed and not yet registered keeps CPFs unique and valid and the accounts numbered 1..n with registered owners. |
| `Customers.StoredCpfIsFound` | meu_banco.py:60-62 | A CPF typed exactly as it is stored still names a registered user after `criar_conta` strips it. |
| `Customers.NumberedAppend` | meu_banco.py:68-73 | Appending an account numbered one past the current count, at branch "0001" and owned by a registered user, keeps accounts numbered 1..n with registered owners. |
| `Customers.Registry.constructor` | meu_banco.py:4-5 | Both lists start empty, and the registry invariant holds. |
| `Customers.Registry.FindUser` | meu_banco.py:21-25 | The result is None iff no user has the CPF. Otherwise it is the user at the first index whose CPF matches: every earlier user has a different CPF. |
| `Customers.Registry.CreateUser` | meu_banco.py:27-56 | The CPF is stripped first. If it is not exactly 11 ASCII digits, the call reports an invalid CPF. Otherwise, if a user already has that CPF, it reports a duplicate. Otherwise it appends exactly one user with the given name, birth date, stripped CPF and address. The accounts never change, nothing changes on a rejection, and CPFs stay unique and valid. |
| `Customers.Registry.CreateAccount` | meu_banco.py:60-73 | It reports user-not-found iff no user has the stripped CPF, and then nothing changes. Otherwise it appends exactly one account: branch "0001", number = old account count + 1, and that user, the only one with the CPF. Users never change; the accounts stay numbered 1..n, and each account's user stays registered. Typing a stored CPF exactly always opens an account. |
| `Customers.ScenarioCpfs` | meu_banco.py:28-30 | "12345678901" is a well-formed CPF and stripping leaves it unchanged. "123" is rejected after stripping. |
| `Customers.RegistrationScenario` | meu_banco.py:27-56 | In a fresh registry, registering any CPF twice: if its stripped form is well formed, the first call creates the user and the second reports a duplicate; otherwise both report an invalid CPF. |

## Left out

- Console I/O: the menu text, the prompts and every printed message (meu_banco.py:28-43, 79-93, 99, 109-111, 120-132, 134-151). Prompted values are parameters; messages are outcome values.
- The exit option and the invalid-option branch of the menu (meu_banco.py:146-151): they change no state.
- Timestamps: `datetime.now` in the São Paulo timezone and the formatting of each statement line (meu_banco.py:1-2, 17, 95-96, 107, 127). A statement entry is its kind and amount only, and the statement text is the sequence of entries.
- Floating point: `float(input(...))` parsing, IEEE rounding of the running balance, NaN and infinities (meu_banco.py:103, 114). Amounts are exact `real` values.
- Customers.IsDigits: follows `str.isdigit` only for ASCII '0'..'9'; other Unicode digits that Python accepts are rejected.
- Customers.Strip: removes only the whitespace below U+0080 (space, tab, line feed, vertical tab, form feed, carriage return, U+001C-U+001F); Python's `strip()` also removes wider Unicode whitespace.
- Python's pass-by-reference of the user dictionary into an account: users are never mutated after creation, so an account holds a copy of the user value.
