/**
  The pure parts of database/functions.py: how adicionar_transacao picks the
  date, and the read-only aggregate of calcular_balanco_usuario with the lemmas
  that say how each write of the store moves it.
*/
module Funcoes {
  import opened Opcoes
  import opened Modelos

  /**
    The date adicionar_transacao stores: today's date when data_str is None or
    empty (both are false in Python), otherwise what strptime(data_str,
    '%Y-%m-%d') makes of it, None standing for the ValueError it raises.
  */
  function ResolverData(dataStr: Option<string>, interpretar: string -> Option<Data>, hoje: Data): (r: Option<Data>)
    ensures dataStr == None || dataStr == Some("") ==> r == Some(hoje)
    ensures dataStr.Some? && dataStr.value != "" ==> r == interpretar(dataStr.value)
  {
    match dataStr
    case None => Some(hoje)
    case Some(s) => if s == "" then Some(hoje) else interpretar(s)
  }

  // ---------------------------------------------------------------------------
  // calcular_balanco_usuario

  /** SUM(contas.saldo_inicial) WHERE id_usuario = u, 0 when no row matches. */
  function SomaSaldos(contas: seq<Conta>, u: int): Centavos {
    if contas == [] then 0
    else (if contas[0].usuario == u then contas[0].saldoInicial else 0) + SomaSaldos(contas[1..], u)
  }

  /** SUM(transacoes.valor) JOIN contas WHERE contas.id_usuario = u, 0 when no row matches. */
  function SomaTransacoes(ts: seq<Transacao>, contas: seq<Conta>, u: int): Centavos {
    if ts == [] then 0
    else (if DonoDaConta(contas, ts[0].conta) == Some(u) then ts[0].valor else 0) + SomaTransacoes(ts[1..], contas, u)
  }

  /** The balance of a user: initial balances of their accounts plus the stored amounts on them. */
  function Balanco(t: Tabelas, u: int): Centavos {
    SomaSaldos(t.contas, u) + SomaTransacoes(t.transacoes, t.contas, u)
  }

  lemma {:induction false} SomaSaldosConcat(a: seq<Conta>, b: seq<Conta>, u: int)
    ensures SomaSaldos(a + b, u) == SomaSaldos(a, u) + SomaSaldos(b, u)
  {
    if a == [] {
      assert a + b == b;
    } else {
      assert (a + b)[1..] == a[1..] + b;
      SomaSaldosConcat(a[1..], b, u);
    }
  }

  lemma {:induction false} SomaTransacoesConcat(a: seq<Transacao>, b: seq<Transacao>, contas: seq<Conta>, u: int)
    ensures SomaTransacoes(a + b, contas, u) == SomaTransacoes(a, contas, u) + SomaTransacoes(b, contas, u)
  {
    if a == [] {
      assert a + b == b;
    } else {
      assert (a + b)[1..] == a[1..] + b;
      SomaTransacoesConcat(a[1..], b, contas, u);
    }
  }

  /** The transaction sum only depends on who owns each referenced account. */
  lemma {:induction false} SomaTransacoesMesmosDonos(ts: seq<Transacao>, c1: seq<Conta>, c2: seq<Conta>, u: int)
    requires forall x | x in ts :: DonoDaConta(c1, x.conta) == DonoDaConta(c2, x.conta)
    ensures SomaTransacoes(ts, c1, u) == SomaTransacoes(ts, c2, u)
  {
    if ts != [] {
      assert ts[0] in ts;
      SomaTransacoesMesmosDonos(ts[1..], c1, c2, u);
    }
  }

  lemma {:induction false} SomaSaldosSemContas(contas: seq<Conta>, u: int)
    requires forall c | c in contas :: c.usuario != u
    ensures SomaSaldos(contas, u) == 0
  {
    if contas != [] {
      assert contas[0] in contas;
      SomaSaldosSemContas(contas[1..], u);
    }
  }

  lemma {:induction false} SomaTransacoesSemContas(ts: seq<Transacao>, contas: seq<Conta>, u: int)
    requires forall c | c in contas :: c.usuario != u
    ensures SomaTransacoes(ts, contas, u) == 0
  {
    if ts != [] {
      SomaTransacoesSemContas(ts[1..], contas, u);
    }
  }

  /** A user who owns no account has balance 0 (both sums are empty). */
  lemma BalancoSemContas(t: Tabelas, u: int)
    requires forall c | c in t.contas :: c.usuario != u
    ensures Balanco(t, u) == 0
  {
    SomaSaldosSemContas(t.contas, u);
    SomaTransacoesSemContas(t.transacoes, t.contas, u);
  }

  /**
    Storing one more transaction moves the balance of the owner of its account
    by the stored amount, and no other user's balance.
  */
  lemma BalancoAposTransacao(t: Tabelas, x: Transacao, u: int)
    ensures Balanco(t.(transacoes := t.transacoes + [x]), u)
         == Balanco(t, u) + (if DonoDaConta(t.contas, x.conta) == Some(u) then x.valor else 0)
  {
    SomaTransacoesConcat(t.transacoes, [x], t.contas, u);
    assert [x][1..] == [];
  }

  /**
    A new account, while no transaction references it, adds its initial
    balance to its owner's balance and nothing to anyone else's.
  */
  lemma BalancoAposNovaConta(t: Tabelas, c: Conta, u: int)
    requires forall x | x in t.transacoes :: x.conta in IdsContas(t.contas)
    ensures Balanco(t.(contas := t.contas + [c]), u)
         == Balanco(t, u) + (if c.usuario == u then c.saldoInicial else 0)
  {
    SomaSaldosConcat(t.contas, [c], u);
    assert [c][1..] == [];
    forall x | x in t.transacoes ensures DonoDaConta(t.contas + [c], x.conta) == DonoDaConta(t.contas, x.conta) {
      BuscarContaConcat(t.contas, [c], x.conta);
    }
    SomaTransacoesMesmosDonos(t.transacoes, t.contas + [c], t.contas, u);
  }

  /**
    Removing an account that no transaction references takes its initial
    balance off its owner's balance and leaves everyone else's alone.
  */
  lemma BalancoAposExclusao(t: Tabelas, i: nat, u: int)
    requires i < |t.contas|
    requires forall x | x in t.transacoes :: x.conta != t.contas[i].id
    ensures Balanco(t.(contas := t.contas[..i] + t.contas[i + 1..]), u)
         == Balanco(t, u) - (if t.contas[i].usuario == u then t.contas[i].saldoInicial else 0)
  {
    var a, c, b := t.contas[..i], t.contas[i], t.contas[i + 1..];
    assert t.contas == a + ([c] + b);
    SomaSaldosConcat(a, [c] + b, u);
    SomaSaldosConcat([c], b, u);
    SomaSaldosConcat(a, b, u);
    assert ([c] + b)[1..] == b;
    forall x | x in t.transacoes ensures DonoDaConta(a + b, x.conta) == DonoDaConta(t.contas, x.conta) {
      BuscarContaConcat(a, b, x.conta);
      BuscarContaConcat(a, [c] + b, x.conta);
    }
    SomaTransacoesMesmosDonos(t.transacoes, a + b, t.contas, u);
  }

  // ---------------------------------------------------------------------------
  // The balance account by account

  /** Initial balance plus the amounts stored on one account. */
  function SaldoDaConta(ts: seq<Transacao>, c: Conta): Centavos {
    c.saldoInicial + SomaNaConta(ts, c.id)
  }

  function SomaNaConta(ts: seq<Transacao>, id: int): Centavos {
    if ts == [] then 0
    else (if ts[0].conta == id then ts[0].valor else 0) + SomaNaConta(ts[1..], id)
  }

  /** The account-by-account view: the sum of SaldoDaConta over the user's accounts. */
  function SomaPorConta(contas: seq<Conta>, ts: seq<Transacao>, u: int): Centavos {
    if contas == [] then 0
    else (if contas[0].usuario == u then SaldoDaConta(ts, contas[0]) else 0) + SomaPorConta(contas[1..], ts, u)
  }

  /** Over accounts with distinct ids, exactly the owner's account collects an amount booked on it. */
  lemma {:induction false} UmaContaRecebe(contas: seq<Conta>, x: Transacao, u: int)
    requires Distintos(IdsContas(contas))
    ensures SomaPorConta(contas, [x], u)
         == SomaSaldos(contas, u) + (if DonoDaConta(contas, x.conta) == Some(u) then x.valor else 0)
  {
    if contas != [] {
      assert [x][1..] == [];
      var ids, resto := IdsContas(contas), IdsContas(contas[1..]);
      assert forall k | 0 <= k < |resto| :: resto[k] == ids[k + 1];
      assert Distintos(resto) by {
        forall i, j | 0 <= i < j < |resto| ensures resto[i] != resto[j] {
          assert ids[i + 1] != ids[j + 1];
        }
      }
      UmaContaRecebe(contas[1..], x, u);
      if contas[0].id == x.conta {
        forall k | 0 <= k < |resto| ensures resto[k] != x.conta {
          assert ids[0] != ids[k + 1];
        }
        assert x.conta !in resto;
        assert DonoDaConta(contas[1..], x.conta) == None;
        assert DonoDaConta(contas, x.conta) == Some(contas[0].usuario);
        assert SomaNaConta([x], contas[0].id) == x.valor;
      } else {
        assert DonoDaConta(contas, x.conta) == DonoDaConta(contas[1..], x.conta);
        assert SomaNaConta([x], contas[0].id) == 0;
      }
    }
  }

  /** SomaPorConta is additive in the transactions, like SomaTransacoes. */
  lemma {:induction false} SomaPorContaConcat(contas: seq<Conta>, a: seq<Transacao>, b: seq<Transacao>, u: int)
    ensures SomaPorConta(contas, a + b, u) + SomaSaldos(contas, u) == SomaPorConta(contas, a, u) + SomaPorConta(contas, b, u)
  {
    if contas != [] {
      SomaPorContaConcat(contas[1..], a, b, u);
      SomaNaContaConcat(a, b, contas[0].id);
    }
  }

  lemma {:induction false} SomaNaContaConcat(a: seq<Transacao>, b: seq<Transacao>, id: int)
    ensures SomaNaConta(a + b, id) == SomaNaConta(a, id) + SomaNaConta(b, id)
  {
    if a == [] {
      assert a + b == b;
    } else {
      assert (a + b)[1..] == a[1..] + b;
      SomaNaContaConcat(a[1..], b, id);
    }
  }

  lemma {:induction false} SomaPorContaSemTransacoes(contas: seq<Conta>, u: int)
    ensures SomaPorConta(contas, [], u) == SomaSaldos(contas, u)
  {
    if contas != [] {
      SomaPorContaSemTransacoes(contas[1..], u);
    }
  }

  lemma {:induction false} SomaPorContaIgualBalanco(contas: seq<Conta>, ts: seq<Transacao>, u: int)
    requires Distintos(IdsContas(contas))
    ensures SomaPorConta(contas, ts, u) == SomaSaldos(contas, u) + SomaTransacoes(ts, contas, u)
  {
    if ts == [] {
      SomaPorContaSemTransacoes(contas, u);
    } else {
      var x := ts[0];
      assert ts == [x] + ts[1..];
      SomaPorContaConcat(contas, [x], ts[1..], u);
      SomaPorContaIgualBalanco(contas, ts[1..], u);
      UmaContaRecebe(contas, x, u);
      assert [x][1..] == [];
    }
  }

  /**
    In a database whose account ids are distinct, the balance is the sum, over
    the user's accounts, of each account's initial balance plus its own amounts.
  */
  lemma BalancoPorConta(t: Tabelas, u: int)
    requires Distintos(IdsContas(t.contas))
    ensures Balanco(t, u) == SomaPorConta(t.contas, t.transacoes, u)
  {
    SomaPorContaIgualBalanco(t.contas, t.transacoes, u);
  }

  /**
    The seeded data: the account "Carteira" with 50.00 and the expense "Lanche"
    of -15.50 in category 1 (a Despesa) give the test user a balance of 34.50.
  */
  lemma BalancoDoSeed()
    ensures var t := TabelasVazias().(
        usuarios := [Usuario(1, "Julius Rock", "julius@doisempregos.com", "hash", 0)],
        contas := [Conta(1, "Carteira", "Corrente", 5000, 1)],
        categorias := [Categoria(1, "Alimentação", Despesa)],
        transacoes := [Transacao(1, "Lanche", -1550, Data(2025, 11, 1), 1, 1)]);
      Balanco(t, 1) == 3450
  {
  }
}
