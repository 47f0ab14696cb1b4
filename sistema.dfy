/**
 * The account/transaction domain of a small retail-banking ledger:
 * clients, accounts (a plain account and a checking account with
 * withdrawal limits), an append-only history per account, and the two
 * transactions, withdrawal (Saque) and deposit (Deposito).
 *
 * Amounts are integers in cents; the timestamp that the history
 * stores is a string handed in by the caller.
 */
module Sistema {

  datatype Option<T> = None | Some(value: T)

  /** The tag kept in a history entry: the class name of the transaction. */
  datatype TipoTransacao = TipoSaque | TipoDeposito

  /** A history entry: when, which kind of transaction, and its amount. */
  datatype Entrada = Entrada(data: string, tipo: TipoTransacao, valor: int)

  /** The two transaction variants; `valor` is the amount of either. */
  datatype Transacao = Saque(valor: int) | Deposito(valor: int)
  {
    /** The tag the history records for this transaction. */
    function Tipo(): (t: TipoTransacao)
      ensures t == TipoSaque <==> Saque?
    {
      match this
      case Saque(_) => TipoSaque
      case Deposito(_) => TipoDeposito
    }

    /**
     * Applies the transaction to `conta`. A withdrawal is recorded in the
     * history only when the account accepted it; a deposit only asks the
     * account to deposit and records nothing.
     */
    method Registrar(conta: Conta, data: string)
      modifies conta, conta.historico
      ensures conta.EstadoAtual() == Passo(conta.politica, old(conta.EstadoAtual()), this, data)
      ensures Deposito? ==> conta.historico.transacoes == old(conta.historico.transacoes)
    {
      match this
      case Saque(v) =>
        var sucesso := conta.Sacar(v);
        if sucesso {
          conta.historico.AdicionarTransacao(this, data);
        }
      case Deposito(v) =>
        var sucesso := conta.Depositar(v);
    }
  }

  /**
   * Which withdrawal rules an account follows: those of the plain
   * account, or those of the checking account with a ceiling per
   * withdrawal and a cap on the number of recorded withdrawals.
   */
  datatype Politica = Simples | Corrente(limite: int, limiteSaques: int)

  /** The class whose constructor an account factory call runs. */
  datatype Classe = ClasseConta | ClasseContaCorrente

  /** Outcome of a withdrawal request, one value per branch of the checks. */
  datatype Veredito =
    | Aprovado
    | SaldoInsuficiente
    | ValorInvalido
    | LimiteExcedido
    | SaquesExcedidos

  /** What an account's state amounts to: its balance and its history. */
  datatype Estado = Estado(saldo: int, transacoes: seq<Entrada>)

  /** A fresh account: balance zero, empty history. */
  const Inicial := Estado(0, [])

  /** The ceiling (500.00, in cents) and count cap a checking account gets when none are given. */
  const LimitePadrao := 50000
  const LimiteSaquesPadrao := 3

  /** Number of history entries tagged as withdrawals. */
  function NumeroSaques(h: seq<Entrada>): (n: nat)
    ensures n <= |h|
    ensures n == |h| <==> forall i :: 0 <= i < |h| ==> h[i].tipo == TipoSaque
    ensures n == 0 <==> forall i :: 0 <= i < |h| ==> h[i].tipo != TipoSaque
    ensures n == |set i | 0 <= i < |h| && h[i].tipo == TipoSaque|
    decreases |h|
  {
    if h == [] then 0
    else
      var anterior := h[..|h| - 1];
      assert (set i | 0 <= i < |h| && h[i].tipo == TipoSaque)
             == (set i | 0 <= i < |anterior| && anterior[i].tipo == TipoSaque)
                + (if h[|h| - 1].tipo == TipoSaque then {|h| - 1} else {});
      NumeroSaques(anterior) + (if h[|h| - 1].tipo == TipoSaque then 1 else 0)
  }

  /** The plain account's withdrawal rule: insufficient funds first, then a non-positive amount. */
  function VereditoSaqueBase(saldo: int, valor: int): (v: Veredito)
    ensures v == Aprovado <==> 0 < valor <= saldo
    ensures v == SaldoInsuficiente <==> valor > saldo
    ensures v == ValorInvalido <==> valor <= 0 && valor <= saldo
    ensures v != LimiteExcedido && v != SaquesExcedidos
  {
    if valor > saldo then SaldoInsuficiente
    else if valor > 0 then Aprovado
    else ValorInvalido
  }

  /**
   * The withdrawal rule of an account with policy `p`, given its balance
   * and the number of withdrawals its history records. A checking account
   * tests the ceiling, then the count, then falls back on the plain rule.
   */
  function VereditoSaque(p: Politica, saldo: int, saques: nat, valor: int): (v: Veredito)
    ensures v == Aprovado <==>
              && 0 < valor <= saldo
              && (p.Corrente? ==> valor <= p.limite && saques < p.limiteSaques)
    ensures p.Simples? ==> v != LimiteExcedido && v != SaquesExcedidos
  {
    match p
    case Simples => VereditoSaqueBase(saldo, valor)
    case Corrente(limite, limiteSaques) =>
      if valor > limite then LimiteExcedido
      else if saques >= limiteSaques then SaquesExcedidos
      else VereditoSaqueBase(saldo, valor)
  }

  /**
   * The effect of registering `t` on an account with policy `p` in
   * state `e` at time `data`.
   */
  function Passo(p: Politica, e: Estado, t: Transacao, data: string): (r: Estado)
    ensures r.transacoes == e.transacoes || r.transacoes == e.transacoes + [Entrada(data, TipoSaque, t.valor)]
    ensures e.saldo >= 0 ==> r.saldo >= 0
    ensures r != e ==> t.valor > 0
  {
    match t
    case Saque(v) =>
      if VereditoSaque(p, e.saldo, NumeroSaques(e.transacoes), v) == Aprovado
      then Estado(e.saldo - v, e.transacoes + [Entrada(data, TipoSaque, v)])
      else e
    case Deposito(v) =>
      if v > 0 then Estado(e.saldo + v, e.transacoes) else e
  }

  /** The append-only list of entries an account owns. */
  class Historico {
    var transacoes: seq<Entrada>

    constructor ()
      ensures transacoes == []
    {
      transacoes := [];
    }

    /** Appends one entry for `transacao`, stamped with `data`. */
    method AdicionarTransacao(transacao: Transacao, data: string)
      modifies this
      ensures transacoes == old(transacoes) + [Entrada(data, transacao.Tipo(), transacao.valor)]
      ensures |transacoes| == |old(transacoes)| + 1
      ensures transacoes[..|old(transacoes)|] == old(transacoes)
    {
      transacoes := transacoes + [Entrada(data, transacao.Tipo(), transacao.valor)];
    }
  }

  /** An account; `politica` says whether it is a plain or a checking account. */
  class Conta {
    var saldo: int
    const numero: int
    const agencia: string
    const cliente: Cliente
    const historico: Historico
    const politica: Politica

    /** A plain account: balance 0, branch "0001", empty history. */
    constructor (numero: int, cliente: Cliente)
      ensures EstadoAtual() == Inicial && fresh(historico)
      ensures this.numero == numero && agencia == "0001" && this.cliente == cliente
      ensures politica == Simples
    {
      saldo := 0;
      this.numero := numero;
      agencia := "0001";
      this.cliente := cliente;
      historico := new Historico();
      politica := Simples;
    }

    /** A checking account with the given ceiling and count cap (by default 500.00 and 3). */
    constructor ContaCorrente(numero: int, cliente: Cliente, limite: int := LimitePadrao, limiteSaques: int := LimiteSaquesPadrao)
      ensures EstadoAtual() == Inicial && fresh(historico)
      ensures this.numero == numero && agencia == "0001" && this.cliente == cliente
      ensures politica == Corrente(limite, limiteSaques)
    {
      saldo := 0;
      this.numero := numero;
      agencia := "0001";
      this.cliente := cliente;
      historico := new Historico();
      politica := Corrente(limite, limiteSaques);
    }

    /**
     * The factory: builds an account of class `classe` for `cliente`; a
     * checking account gets the default ceiling and count cap. The account
     * is not added to the client's list.
     */
    static method NovaConta(classe: Classe, cliente: Cliente, numero: int) returns (conta: Conta)
      ensures fresh(conta) && fresh(conta.historico)
      ensures conta.EstadoAtual() == Inicial
      ensures conta.numero == numero && conta.agencia == "0001" && conta.cliente == cliente
      ensures conta.politica == if classe == ClasseConta then Simples
                                else Corrente(LimitePadrao, LimiteSaquesPadrao)
    {
      if classe == ClasseConta {
        conta := new Conta(numero, cliente);
      } else {
        conta := new Conta.ContaCorrente(numero, cliente);
      }
    }

    function EstadoAtual(): Estado
      reads this, historico
    {
      Estado(saldo, historico.transacoes)
    }

    /** The plain account's withdrawal: takes `valor` out iff 0 < valor <= saldo. */
    method SacarBase(valor: int) returns (ok: bool)
      modifies this
      ensures ok <==> 0 < valor <= old(saldo)
      ensures ok <==> VereditoSaqueBase(old(saldo), valor) == Aprovado
      ensures saldo == if ok then old(saldo) - valor else old(saldo)
    {
      var excedeuSaldo := valor > saldo;
      if excedeuSaldo {
        ok := false;
      } else if valor > 0 {
        saldo := saldo - valor;
        ok := true;
      } else {
        ok := false;
      }
    }

    /**
     * Withdraws `valor` under this account's policy. A checking account
     * refuses an amount above its ceiling, then refuses once its history
     * holds `limiteSaques` withdrawals, and otherwise withdraws like a
     * plain account. The history is left alone.
     */
    method Sacar(valor: int) returns (ok: bool)
      modifies this
      ensures ok <==> VereditoSaque(politica, old(saldo), NumeroSaques(historico.transacoes), valor) == Aprovado
      ensures saldo == if ok then old(saldo) - valor else old(saldo)
    {
      match politica
      case Simples =>
        ok := SacarBase(valor);
      case Corrente(limite, limiteSaques) =>
        var numeroSaques := NumeroSaques(historico.transacoes);
        var excedeuLimite := valor > limite;
        var excedeuSaques := numeroSaques >= limiteSaques;
        if excedeuLimite {
          ok := false;
        } else if excedeuSaques {
          ok := false;
        } else {
          ok := SacarBase(valor);
        }
    }

    /** Adds `valor` to the balance iff it is positive. */
    method Depositar(valor: int) returns (ok: bool)
      modifies this
      ensures ok <==> valor > 0
      ensures saldo == if ok then old(saldo) + valor else old(saldo)
    {
      if valor > 0 {
        saldo := saldo + valor;
      } else {
        return false;
      }
      return true;
    }
  }

  /** A client (a natural person) and the accounts it owns, in order. */
  class Cliente {
    const endereco: string
    const nome: string
    const dataNascimento: string
    const cpf: string
    var contas: seq<Conta>

    constructor PessoaFisica(nome: string, dataNascimento: string, cpf: string, endereco: string)
      ensures this.nome == nome && this.dataNascimento == dataNascimento
      ensures this.cpf == cpf && this.endereco == endereco
      ensures contas == []
    {
      this.endereco := endereco;
      contas := [];
      this.nome := nome;
      this.dataNascimento := dataNascimento;
      this.cpf := cpf;
    }

    /**
     * Applies `transacao` to `conta`; whether `conta` belongs to this
     * client is not checked.
     */
    method RealizarTransacao(conta: Conta, transacao: Transacao, data: string)
      modifies conta, conta.historico
      ensures conta.EstadoAtual() == Passo(conta.politica, old(conta.EstadoAtual()), transacao, data)
    {
      transacao.Registrar(conta, data);
    }

    /** Appends `conta` to the client's accounts; the first account stays first. */
    method AdicionarConta(conta: Conta)
      modifies this
      ensures contas == old(contas) + [conta]
      ensures RecuperarContaCliente(this) == if old(contas) == [] then Some(conta) else Some(old(contas)[0])
    {
      contas := contas + [conta];
    }
  }

  /** The clients of `cs` whose CPF is `cpf`. */
  function Filtrados(cpf: string, cs: seq<Cliente>): (r: seq<Cliente>)
    ensures |r| <= |cs|
    ensures forall c :: c in r ==> c in cs && c.cpf == cpf
    ensures forall i :: 0 <= i < |cs| && cs[i].cpf == cpf ==> cs[i] in r
    decreases |cs|
  {
    if cs == [] then []
    else (if cs[0].cpf == cpf then [cs[0]] else []) + Filtrados(cpf, cs[1..])
  }

  /** Index `i` is the one and only position in `cs` of a client with CPF `cpf`. */
  predicate UnicaCorrespondencia(cpf: string, cs: seq<Cliente>, i: int)
  {
    && 0 <= i < |cs|
    && cs[i].cpf == cpf
    && forall j :: 0 <= j < |cs| && cs[j].cpf == cpf ==> j == i
  }

  /**
   * Looks a client up by CPF: the client when exactly one position of
   * `cs` holds that CPF, and None when none does or several do.
   */
  function FiltrarClientes(cpf: string, cs: seq<Cliente>): (r: Option<Cliente>)
    ensures r.Some? <==> exists i :: UnicaCorrespondencia(cpf, cs, i)
    ensures forall i :: UnicaCorrespondencia(cpf, cs, i) ==> r == Some(cs[i])
  {
    FiltradosUnico(cpf, cs);
    var filtrados := Filtrados(cpf, cs);
    if |filtrados| == 1 then Some(filtrados[0]) else None
  }

  /** Exactly one match survives the filter iff the CPF occurs at exactly one position. */
  lemma {:induction false} FiltradosUnico(cpf: string, cs: seq<Cliente>)
    ensures |Filtrados(cpf, cs)| == 1 <==> exists i :: UnicaCorrespondencia(cpf, cs, i)
    ensures forall i :: UnicaCorrespondencia(cpf, cs, i) ==> Filtrados(cpf, cs) == [cs[i]]
    ensures |Filtrados(cpf, cs)| == 0 <==> forall i :: 0 <= i < |cs| ==> cs[i].cpf != cpf
    decreases |cs|
  {
    if cs != [] {
      var resto := cs[1..];
      FiltradosUnico(cpf, resto);
      assert forall j :: 0 < j < |cs| ==> cs[j] == resto[j - 1];
      if cs[0].cpf == cpf {
        if |Filtrados(cpf, cs)| == 1 {
          assert UnicaCorrespondencia(cpf, cs, 0);
        }
        forall i | UnicaCorrespondencia(cpf, cs, i)
          ensures Filtrados(cpf, cs) == [cs[i]]
        {
          assert i == 0;
          assert forall k :: 0 <= k < |resto| ==> resto[k] == cs[k + 1];
        }
      } else {
        if |Filtrados(cpf, cs)| == 1 {
          var k :| UnicaCorrespondencia(cpf, resto, k);
          assert UnicaCorrespondencia(cpf, cs, k + 1);
        }
        forall i | UnicaCorrespondencia(cpf, cs, i)
          ensures Filtrados(cpf, cs) == [cs[i]]
        {
          assert UnicaCorrespondencia(cpf, resto, i - 1);
        }
      }
    }
  }

  /** The client's first account, or None when it has none. */
  function RecuperarContaCliente(cliente: Cliente): (r: Option<Conta>)
    reads cliente
    ensures r.None? <==> cliente.contas == []
    ensures r.Some? ==> r.value == cliente.contas[0] && r.value in cliente.contas
  {
    if cliente.contas == [] then None else Some(cliente.contas[0])
  }
}
