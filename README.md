# Banking ledger domain model in Dafny

This project models the account/transaction core of a small retail-banking
system written in Python (`sistema.py`): clients (`Cliente`, natural persons
with a CPF), accounts (`Conta` and the checking account `ContaCorrente`),
the per-account transaction history (`Historico`) and the two transactions
`Saque` (withdrawal) and `Deposito` (deposit). It proves the balance rules,
the order of the checking account's checks, the history's append-only
behaviour and the withdrawal count cap, and the two lookup helpers
`filtrar_clientes` and `recuperar_conta_cliente`.

Files:

- `sistema.dfy`, module `Sistema`: the entities and operations.
  - `Historico`, `Conta` and `Cliente` are classes, because the source
    updates their fields in place.
  - `Transacao` is a datatype `Saque(valor) | Deposito(valor)` whose
    method `Registrar` applies it to an account. It replaces the abstract
    base class.
  - `ContaCorrente` is not a subclass. An account carries a constant
    `politica`: either `Simples` or `Corrente(limite, limiteSaques)`.
    `Conta.Sacar` dispatches on it, and the constructor `ContaCorrente`
    builds such an account.
  - The pure functions `NumeroSaques`, `VereditoSaqueBase`, `VereditoSaque`
    and `Passo` state the rules. `Passo` is the effect of one `Registrar`
    call on an account's balance and history. The methods are proved
    against these functions.
  - `VereditoSaque` returns one `Veredito` per branch of the checks: approved,
    insufficient funds, invalid amount, ceiling exceeded, count exceeded.
    The source only prints a message in each branch and returns a bool. The
    methods also return only the bool.
- `propriedades.dfy`, module `Propriedades`: lemmas about single operations.
  It also has lemmas about runs: `Executar` folds `Passo` over a sequence of
  operations. Two scenarios end the file, one on the rules and one on
  objects.

Encoding decisions:

- Amounts are integers in cents. The checking account's default ceiling of
  500 is therefore `LimitePadrao == 50000`. Its default count cap is
  `LimiteSaquesPadrao == 3`.
- The history entry's timestamp is a string passed in by the caller, as
  the `data` parameter of `Registrar`, `RealizarTransacao` and
  `AdicionarTransacao`.
- The entry's tag, the transaction's class name, is the datatype
  `TipoTransacao` (`TipoSaque`, `TipoDeposito`) rather than a string.
- `PessoaFisica` is folded into `Cliente`, as its constructor
  `Cliente.PessoaFisica`. The lookup by CPF needs `cpf`, which only
  `PessoaFisica` has.
- The classmethod `nova_conta` builds an instance of the class it is
  called on. `Conta.NovaConta` takes that class as a `Classe` value.

Two behaviours of the code may look unintended. The model follows the code
in both:

- A deposit is never recorded in the history. `Deposito.registrar` only
  calls `depositar` (sistema.py:155-156). So a deposit followed by a
  500.00 withdrawal leaves a history that holds only the withdrawal
  (`CenarioContaCorrente`, `CenarioObjetos`).
- Duplicate CPFs are handled as the code does: `filtrar_clientes` returns
  nothing when several clients match.

## Model

| member | source | states |
|---|---|---|
| `Sistema.Transacao.Tipo` | sistema.py:119 | the tag recorded for a transaction is the withdrawal tag exactly for `Saque` |
| `Sistema.Transacao.Registrar` | sistema.py:142-156 | applying a transaction moves the account from its old state to `Passo` of it. A deposit leaves the history unchanged |
| `Sistema.NumeroSaques` | sistema.py:87-88 | the count equals the number of positions whose entry is tagged as a withdrawal. It is at most the history length, equals it iff every entry is a withdrawal, and is 0 iff none is |
| `Sistema.VereditoSaqueBase` | sistema.py:54-68 | a plain withdrawal is approved iff 0 < valor <= saldo. It is insufficient funds iff valor > saldo, and an invalid amount iff valor <= 0 and valor <= saldo |
| `Sistema.VereditoSaque` | sistema.py:86-102 | a withdrawal is approved iff 0 < valor <= saldo and, for a checking account, also valor <= limite and the count is below limiteSaques. A plain account never reports a ceiling or count failure |
| `Sistema.Passo` | sistema.py:142-156 | one registration either leaves the history alone or appends exactly one withdrawal entry with its amount and timestamp. It keeps a non-negative balance non-negative, and changes nothing when the amount is not positive |
| `Sistema.Historico.constructor` | sistema.py:108-109 | a new history is empty |
| `Sistema.Historico.AdicionarTransacao` | sistema.py:115-122 | appends exactly one entry (timestamp, class tag, amount) at the end. The earlier entries are kept in order |
| `Sistema.Conta.constructor` | sistema.py:23-28 | a new account has balance 0, branch "0001", an empty fresh history, the given number and client |
| `Sistema.Conta.ContaCorrente` | sistema.py:80-84 | a new checking account is like a new account but carries the given ceiling and count cap, by default 500.00 and 3 |
| `Sistema.Conta.NovaConta` | sistema.py:30-32 | the factory builds a fresh account of the requested class. A checking account gets ceiling 500.00 and cap 3. The client's account list is untouched |
| `Sistema.Conta.SacarBase` | sistema.py:54-68 | succeeds iff 0 < valor <= old balance. On success the balance drops by exactly valor, otherwise it is unchanged |
| `Sistema.Conta.Sacar` | sistema.py:86-102 | succeeds iff `VereditoSaque` approves for the account's policy, balance and history count. It takes out exactly valor on success and nothing otherwise |
| `Sistema.Conta.Depositar` | sistema.py:70-77 | succeeds iff valor > 0. On success the balance grows by exactly valor, otherwise it is unchanged |
| `Sistema.Cliente.PessoaFisica` | sistema.py:15-20 | a new client has the given name, birth date, CPF and address and no accounts |
| `Sistema.Cliente.RealizarTransacao` | sistema.py:9-10 | the account moves to `Passo` of its old state, with no check that it belongs to the client |
| `Sistema.Cliente.AdicionarConta` | sistema.py:12-13 | the account list grows by the new account at the end. The first account stays the one `RecuperarContaCliente` returns |
| `Sistema.Filtrados` | sistema.py:192 | the filtered list is no longer than the input. It holds only clients of the input with that CPF, and every client of the input with that CPF is in it |
| `Sistema.FiltradosUnico` | sistema.py:191-193 | exactly one client survives the filter iff exactly one position holds the CPF, and then it is that client. None survives iff no position holds it |
| `Sistema.FiltrarClientes` | sistema.py:191-193 | returns a client iff exactly one position of the list holds the CPF, and then it is that client. Zero or duplicate matches give None |
| `Sistema.RecuperarContaCliente` | sistema.py:195-199 | None iff the client has no accounts, otherwise the first account |
| `Propriedades.DepositoNaoRegistra` | sistema.py:155-156 | a deposit adds exactly its amount when positive, nothing otherwise, and never changes the history |
| `Propriedades.SaqueRegistraSeAceito` | sistema.py:142-145 | a withdrawal changes the state iff it is accepted. Then the balance drops by its amount and exactly one withdrawal entry is appended |
| `Propriedades.ValorNaoPositivoRejeitado` | sistema.py:61-75 | a non-positive amount leaves balance and history unchanged for both transactions |
| `Propriedades.SaqueDoSaldoInteiro` | sistema.py:54-68 | withdrawing the whole positive balance is approved. One cent more is insufficient funds, and 0 is an invalid amount |
| `Propriedades.LimiteVerificadoPrimeiro` | sistema.py:90-94 | above the ceiling a checking account reports the ceiling failure, whatever the balance and the count |
| `Propriedades.TetoDeSaquesVerificado` | sistema.py:91-97 | within the ceiling and at the count cap, a checking account reports the count failure, whatever the balance |
| `Propriedades.CorrenteComoBase` | sistema.py:99-100 | within both limits a checking account decides exactly like the plain rule `VereditoSaqueBase`, as a plain account does |
| `Propriedades.SaqueValidoAprovado` | sistema.py:99-100 | a withdrawal with 0 < valor <= saldo within both limits is approved by a checking account and by a plain one |
| `Propriedades.CorrenteMaisRestrita` | sistema.py:86-102 | a checking account never approves a withdrawal a plain account refuses |
| `Propriedades.NumeroSaquesAcrescimo` | sistema.py:87-88 | appending an entry raises the withdrawal count by one iff the entry is a withdrawal |
| `Propriedades.SaldoNuncaNegativo` | sistema.py:54-77 | no sequence of registrations makes a non-negative balance negative |
| `Propriedades.ContaNovaSaldoNaoNegativo` | sistema.py:24 | a fresh account's balance stays >= 0 under any sequence of registrations |
| `Propriedades.HistoricoSoCresce` | sistema.py:115-122 | the history before a run is a prefix of the history after it |
| `Propriedades.SaquesContados` | sistema.py:142-145 | over a run, the withdrawal count and the history length grow by exactly the number of accepted withdrawals |
| `Propriedades.SomenteSaques` | sistema.py:155-156 | a history of withdrawal entries stays one under any run |
| `Propriedades.ContaNovaSoRegistraSaques` | sistema.py:145 | on a fresh account every history entry is a withdrawal |
| `Propriedades.TetoDeSaques` | sistema.py:87-97 | a checking account whose count is within the cap stays within it under any run |
| `Propriedades.SaquesAposTeto` | sistema.py:91-97 | once the count reaches the cap, no run accepts a withdrawal or changes the history |
| `Propriedades.ContaCorrenteEsgotada` | sistema.py:87-97 | after `limiteSaques` accepted withdrawals on a fresh checking account, the history holds exactly that many withdrawal entries. No later run accepts another or changes it |
| `Propriedades.CenarioContaCorrente` | sistema.py:86-156 | default checking account, deposit 1000.00, withdraw 500.00, withdraw 600.00: balance 500.00, history holds only the 500.00 withdrawal |
| `Propriedades.CenarioObjetos` | sistema.py:9-156 | the same scenario through a client, the account factory and `RealizarTransacao`: the factory's account is a default checking account, it is the client's first account, and it ends with balance 500.00 and only the 500.00 withdrawal in its history |

## Left out

- The interactive shell (`menu`, the shell-level `depositar`, `sacar`, `exibir_extrato`, `criar_conta`, `criar_cliente`, `listar_contas`, sistema.py:159-304): console input/output and menu looping. The shell is also broken in several places, so it is no source of intended behaviour.
- The messages printed inside `sacar`, `depositar` and `ContaCorrente.sacar` (sistema.py:59-73, 94, 97): output only. Which branch was taken is kept as a `Veredito`.
- `datetime.now().strftime(...)` (sistema.py:118): wall-clock time. The timestamp is a parameter.
- Float amounts (sistema.py:209, 236): floating point. Amounts are integers in cents, so rounding of binary fractions is not modelled.
- The read-only properties `saldo`, `numero`, `agencia`, `cliente`, `historico`, `transacoes` (sistema.py:34-52, 111-113): Dafny reads the fields directly.
- `__str__` (sistema.py:104-105) and the never-used `_saques` field (sistema.py:84): neither affects any operation.
- The `ABC`/`abstractmethod` base `Transacao` (sistema.py:124-132): the datatype takes its place.
- The bare `Cliente` constructor without a CPF (sistema.py:5-7): every client the system creates is a `PessoaFisica`.
- The model has no dynamic typing. The source would compare whatever value it is given, for example a `None` amount, and would then fail at run time. The model's amounts are always integers.
