/**
 * Properties of the account rules: single operations, and runs of
 * `Registrar` calls on one account, described by folding `Passo` over
 * the sequence of operations.
 */
module Propriedades {
  import opened Sistema

  /** One `Registrar` call: the transaction and the timestamp it is stamped with. */
  datatype Operacao = Operacao(transacao: Transacao, data: string)

  /** The state an account with policy `p` reaches from `e` by registering `ops` in order. */
  function Executar(p: Politica, e: Estado, ops: seq<Operacao>): Estado
    decreases |ops|
  {
    if ops == [] then e
    else Executar(p, Passo(p, e, ops[0].transacao, ops[0].data), ops[1..])
  }

  /** Whether registering `t` in state `e` is a withdrawal the account accepts. */
  predicate SaqueAceito(p: Politica, e: Estado, t: Transacao)
  {
    t.Saque? && VereditoSaque(p, e.saldo, NumeroSaques(e.transacoes), t.valor) == Aprovado
  }

  /** How many of the withdrawals in `ops` the account accepts along the run. */
  function SaquesAceitos(p: Politica, e: Estado, ops: seq<Operacao>): nat
    decreases |ops|
  {
    if ops == [] then 0
    else (if SaqueAceito(p, e, ops[0].transacao) then 1 else 0)
         + SaquesAceitos(p, Passo(p, e, ops[0].transacao, ops[0].data), ops[1..])
  }

  // ---------------------------------------------------------------------
  // Single operations

  /** A deposit is accepted iff positive, adds exactly its amount, and never touches the history. */
  lemma DepositoNaoRegistra(p: Politica, e: Estado, v: int, data: string)
    ensures Passo(p, e, Deposito(v), data).transacoes == e.transacoes
    ensures Passo(p, e, Deposito(v), data).saldo == if v > 0 then e.saldo + v else e.saldo
  {
  }

  /** A withdrawal changes the state iff it is accepted, and then takes out `v` and logs one entry. */
  lemma SaqueRegistraSeAceito(p: Politica, e: Estado, v: int, data: string)
    ensures Passo(p, e, Saque(v), data) != e <==> SaqueAceito(p, e, Saque(v))
    ensures SaqueAceito(p, e, Saque(v)) ==>
              Passo(p, e, Saque(v), data) == Estado(e.saldo - v, e.transacoes + [Entrada(data, TipoSaque, v)])
  {
  }

  /** A non-positive amount is refused by both transactions and leaves the state as it was. */
  lemma ValorNaoPositivoRejeitado(p: Politica, e: Estado, t: Transacao, data: string)
    requires t.valor <= 0
    ensures Passo(p, e, t, data) == e
  {
  }

  /** Withdrawing the whole balance is allowed and empties it; one cent more is refused. */
  lemma SaqueDoSaldoInteiro(saldo: int)
    requires saldo > 0
    ensures VereditoSaqueBase(saldo, saldo) == Aprovado
    ensures VereditoSaqueBase(saldo, saldo + 1) == SaldoInsuficiente
    ensures VereditoSaqueBase(saldo, 0) == ValorInvalido
  {
  }

  /**
   * The checking account tests the ceiling first: an amount above it is
   * refused as such whatever the balance and the withdrawal count.
   */
  lemma LimiteVerificadoPrimeiro(limite: int, limiteSaques: int, saldo: int, saques: nat, valor: int)
    requires valor > limite
    ensures VereditoSaque(Corrente(limite, limiteSaques), saldo, saques, valor) == LimiteExcedido
  {
  }

  /** Within the ceiling, a checking account at its count cap refuses whatever the balance. */
  lemma TetoDeSaquesVerificado(limite: int, limiteSaques: int, saldo: int, saques: nat, valor: int)
    requires valor <= limite && saques >= limiteSaques
    ensures VereditoSaque(Corrente(limite, limiteSaques), saldo, saques, valor) == SaquesExcedidos
  {
  }

  /** Within both limits, a checking account withdraws exactly like a plain one. */
  lemma CorrenteComoBase(limite: int, limiteSaques: int, saldo: int, saques: nat, valor: int)
    requires valor <= limite && saques < limiteSaques
    ensures VereditoSaque(Corrente(limite, limiteSaques), saldo, saques, valor)
            == VereditoSaqueBase(saldo, valor)
    ensures VereditoSaque(Simples, saldo, saques, valor) == VereditoSaqueBase(saldo, valor)
  {
  }

  /** A valid withdrawal within both limits is approved, by either kind of account. */
  lemma SaqueValidoAprovado(limite: int, limiteSaques: int, saldo: int, saques: nat, valor: int)
    requires 0 < valor <= saldo && valor <= limite && saques < limiteSaques
    ensures VereditoSaque(Corrente(limite, limiteSaques), saldo, saques, valor) == Aprovado
    ensures VereditoSaque(Simples, saldo, saques, valor) == Aprovado
  {
  }

  /** A checking account never accepts a withdrawal a plain account would refuse. */
  lemma CorrenteMaisRestrita(limite: int, limiteSaques: int, saldo: int, saques: nat, valor: int)
    ensures VereditoSaque(Corrente(limite, limiteSaques), saldo, saques, valor) == Aprovado
            ==> VereditoSaque(Simples, saldo, saques, valor) == Aprovado
  {
  }

  /** Appending an entry adds one to the withdrawal count iff it is tagged as a withdrawal. */
  lemma NumeroSaquesAcrescimo(h: seq<Entrada>, x: Entrada)
    ensures NumeroSaques(h + [x]) == NumeroSaques(h) + (if x.tipo == TipoSaque then 1 else 0)
  {
  }

  // ---------------------------------------------------------------------
  // Runs

  /** Starting from a non-negative balance, no run makes the balance negative. */
  lemma {:induction false} SaldoNuncaNegativo(p: Politica, e: Estado, ops: seq<Operacao>)
    requires e.saldo >= 0
    ensures Executar(p, e, ops).saldo >= 0
    decreases |ops|
  {
    if ops != [] {
      SaldoNuncaNegativo(p, Passo(p, e, ops[0].transacao, ops[0].data), ops[1..]);
    }
  }

  /** A fresh account's balance stays non-negative whatever is registered on it. */
  lemma ContaNovaSaldoNaoNegativo(p: Politica, ops: seq<Operacao>)
    ensures Executar(p, Inicial, ops).saldo >= 0
  {
    SaldoNuncaNegativo(p, Inicial, ops);
  }

  /** The history only grows: what it held before a run is a prefix of what it holds after. */
  lemma {:induction false} HistoricoSoCresce(p: Politica, e: Estado, ops: seq<Operacao>)
    ensures |e.transacoes| <= |Executar(p, e, ops).transacoes|
    ensures Executar(p, e, ops).transacoes[..|e.transacoes|] == e.transacoes
    decreases |ops|
  {
    if ops != [] {
      var e' := Passo(p, e, ops[0].transacao, ops[0].data);
      HistoricoSoCresce(p, e', ops[1..]);
      var h := Executar(p, e, ops).transacoes;
      assert h[..|e'.transacoes|] == e'.transacoes;
      assert e'.transacoes[..|e.transacoes|] == e.transacoes;
      assert h[..|e.transacoes|] == h[..|e'.transacoes|][..|e.transacoes|];
    }
  }

  /** Each accepted withdrawal adds exactly one withdrawal entry, and nothing else adds any. */
  lemma {:induction false} SaquesContados(p: Politica, e: Estado, ops: seq<Operacao>)
    ensures NumeroSaques(Executar(p, e, ops).transacoes)
            == NumeroSaques(e.transacoes) + SaquesAceitos(p, e, ops)
    ensures |Executar(p, e, ops).transacoes| == |e.transacoes| + SaquesAceitos(p, e, ops)
    decreases |ops|
  {
    if ops != [] {
      var t := ops[0].transacao;
      var d := ops[0].data;
      var e' := Passo(p, e, t, d);
      SaquesContados(p, e', ops[1..]);
      if SaqueAceito(p, e, t) {
        NumeroSaquesAcrescimo(e.transacoes, Entrada(d, TipoSaque, t.valor));
      }
    }
  }

  /** Registering only adds withdrawal entries: a history of withdrawals stays one. */
  lemma {:induction false} SomenteSaques(p: Politica, e: Estado, ops: seq<Operacao>)
    requires forall i :: 0 <= i < |e.transacoes| ==> e.transacoes[i].tipo == TipoSaque
    ensures forall i :: 0 <= i < |Executar(p, e, ops).transacoes| ==>
              Executar(p, e, ops).transacoes[i].tipo == TipoSaque
    decreases |ops|
  {
    if ops != [] {
      var e' := Passo(p, e, ops[0].transacao, ops[0].data);
      assert forall i :: 0 <= i < |e'.transacoes| ==> e'.transacoes[i].tipo == TipoSaque by {
        if e'.transacoes != e.transacoes {
          assert forall i :: 0 <= i < |e.transacoes| ==> e'.transacoes[i] == e.transacoes[i];
        }
      }
      SomenteSaques(p, e', ops[1..]);
    }
  }

  /** On a fresh account every history entry is a withdrawal: deposits are never logged. */
  lemma ContaNovaSoRegistraSaques(p: Politica, ops: seq<Operacao>)
    ensures forall i :: 0 <= i < |Executar(p, Inicial, ops).transacoes| ==>
              Executar(p, Inicial, ops).transacoes[i].tipo == TipoSaque
    ensures NumeroSaques(Executar(p, Inicial, ops).transacoes) == |Executar(p, Inicial, ops).transacoes|
  {
    SomenteSaques(p, Inicial, ops);
  }

  /** A checking account within its count cap stays within it. */
  lemma {:induction false} TetoDeSaques(limite: int, limiteSaques: int, e: Estado, ops: seq<Operacao>)
    requires NumeroSaques(e.transacoes) <= limiteSaques
    ensures NumeroSaques(Executar(Corrente(limite, limiteSaques), e, ops).transacoes) <= limiteSaques
    decreases |ops|
  {
    if ops != [] {
      var p := Corrente(limite, limiteSaques);
      var t := ops[0].transacao;
      var d := ops[0].data;
      if SaqueAceito(p, e, t) {
        NumeroSaquesAcrescimo(e.transacoes, Entrada(d, TipoSaque, t.valor));
      }
      TetoDeSaques(limite, limiteSaques, Passo(p, e, t, d), ops[1..]);
    }
  }

  /**
   * Once a checking account's history holds `limiteSaques` withdrawals,
   * every further withdrawal is refused: no run accepts one or adds an entry.
   */
  lemma {:induction false} SaquesAposTeto(limite: int, limiteSaques: int, e: Estado, ops: seq<Operacao>)
    requires NumeroSaques(e.transacoes) >= limiteSaques
    ensures SaquesAceitos(Corrente(limite, limiteSaques), e, ops) == 0
    ensures Executar(Corrente(limite, limiteSaques), e, ops).transacoes == e.transacoes
    decreases |ops|
  {
    if ops != [] {
      var p := Corrente(limite, limiteSaques);
      SaquesAposTeto(limite, limiteSaques, Passo(p, e, ops[0].transacao, ops[0].data), ops[1..]);
    }
  }

  /**
   * After `limiteSaques` accepted withdrawals on a fresh checking account,
   * its history holds exactly that many withdrawal entries and no later
   * run changes it.
   */
  lemma ContaCorrenteEsgotada(limite: int, limiteSaques: int, ops: seq<Operacao>, depois: seq<Operacao>)
    requires SaquesAceitos(Corrente(limite, limiteSaques), Inicial, ops) == limiteSaques
    ensures NumeroSaques(Executar(Corrente(limite, limiteSaques), Inicial, ops).transacoes) == limiteSaques
    ensures |Executar(Corrente(limite, limiteSaques), Inicial, ops).transacoes| == limiteSaques
    ensures SaquesAceitos(Corrente(limite, limiteSaques), Executar(Corrente(limite, limiteSaques), Inicial, ops), depois) == 0
    ensures Executar(Corrente(limite, limiteSaques), Executar(Corrente(limite, limiteSaques), Inicial, ops), depois).transacoes
            == Executar(Corrente(limite, limiteSaques), Inicial, ops).transacoes
  {
    var p := Corrente(limite, limiteSaques);
    SaquesContados(p, Inicial, ops);
    SaquesAposTeto(limite, limiteSaques, Executar(p, Inicial, ops), depois);
  }

  /**
   * A default checking account: deposit 1000.00, withdraw 500.00, then
   * 600.00 (above the ceiling). The deposit is not logged; the second
   * withdrawal is refused and changes nothing.
   */
  lemma CenarioContaCorrente()
    ensures Executar(Corrente(LimitePadrao, LimiteSaquesPadrao), Inicial,
                     [Operacao(Deposito(100000), "d1"), Operacao(Saque(50000), "d2"), Operacao(Saque(60000), "d3")])
            == Estado(50000, [Entrada("d2", TipoSaque, 50000)])
  {
    var p := Corrente(LimitePadrao, LimiteSaquesPadrao);
    var ops := [Operacao(Deposito(100000), "d1"), Operacao(Saque(50000), "d2"), Operacao(Saque(60000), "d3")];
    var e1 := Estado(100000, []);
    var e2 := Estado(50000, [Entrada("d2", TipoSaque, 50000)]);
    assert Passo(p, Inicial, Deposito(100000), "d1") == e1;
    assert NumeroSaques(e1.transacoes) == 0;
    assert Passo(p, e1, Saque(50000), "d2") == e2;
    assert Passo(p, e2, Saque(60000), "d3") == e2;
    assert ops[1..][1..][1..] == [];
    assert Executar(p, e2, ops[1..][1..][1..]) == e2;
  }

  /**
   * The same scenario on objects: a client, an account from the factory,
   * and the transactions applied through the client.
   */
  method CenarioObjetos() returns (conta: Conta, saldo: int, extrato: seq<Entrada>, primeira: Option<Conta>)
    ensures conta.politica == Corrente(LimitePadrao, LimiteSaquesPadrao) && conta.numero == 1
    ensures primeira == Some(conta)
    ensures saldo == conta.saldo == 50000
    ensures extrato == conta.historico.transacoes == [Entrada("d2", TipoSaque, 50000)]
  {
    var cliente := new Cliente.PessoaFisica("Ana", "01-01-1990", "12345678900", "Rua A, 1");
    conta := Conta.NovaConta(ClasseContaCorrente, cliente, 1);
    cliente.AdicionarConta(conta);
    primeira := RecuperarContaCliente(cliente);
    cliente.RealizarTransacao(conta, Deposito(100000), "d1");
    cliente.RealizarTransacao(conta, Saque(50000), "d2");
    cliente.RealizarTransacao(conta, Saque(60000), "d3");
    saldo := conta.saldo;
    extrato := conta.historico.transacoes;
  }
}
