/**
  The store as the service functions of database/functions.py and the SQL
  statements of database/procedures_triggers.py change it: one object holding
  every table, whose methods are the writes (the criar_* functions,
  adicionar_transacao, sp_atualizar_saldo_meta, sp_registrar_transferencia, the
  e-mail UPDATE and the account DELETE) with the triggers that fire on them.
  A write that fails (a rolled-back session, a statement refused by a
  constraint) leaves every table as it was.
*/
module Sessao {
  import opened Opcoes
  import opened Modelos
  import opened Procedimentos
  import opened Funcoes
  import opened Invariantes

  class Banco {
    var usuarios: seq<Usuario>
    var contas: seq<Conta>
    var categorias: seq<Categoria>
    var transacoes: seq<Transacao>
    var tags: seq<Tag>
    var transacaoTags: seq<TransacaoTag>
    var metas: seq<Meta>
    var tiposInvestimento: seq<TipoInvestimento>
    var investimentos: seq<Investimento>
    var logEmails: seq<LogEmail>
    var contasBackup: seq<ContaBackup>

    /**
      The default of usuarios.data_criacao: the column default is a value
      computed once, when the models module is imported, not per insert.
    */
    const criacaoPadrao: Instante

    /** Every table at this moment, as one value. */
    function Snapshot(): Tabelas
      reads this
    {
      Tabelas(usuarios, contas, categorias, transacoes, tags, transacaoTags, metas,
              tiposInvestimento, investimentos, logEmails, contasBackup)
    }

    ghost predicate Valid()
      reads this
    {
      Integro(Snapshot())
    }

    /** A store holding the given tables. */
    constructor (inicial: Tabelas, criacaoPadrao: Instante)
      requires Integro(inicial)
      ensures Valid() && Snapshot() == inicial
      ensures this.criacaoPadrao == criacaoPadrao
    {
      usuarios, contas, categorias, transacoes := inicial.usuarios, inicial.contas, inicial.categorias, inicial.transacoes;
      tags, transacaoTags, metas := inicial.tags, inicial.transacaoTags, inicial.metas;
      tiposInvestimento, investimentos := inicial.tiposInvestimento, inicial.investimentos;
      logEmails, contasBackup := inicial.logEmails, inicial.contasBackup;
      this.criacaoPadrao := criacaoPadrao;
    }

    // -------------------------------------------------------------------------
    // criar_usuario

    /**
      Refuses an e-mail that is already registered. Otherwise stores one user
      whose credential is hashSenha(senhaPlana), never the plain password; the
      id is the next auto-increment value and data_criacao the import-time default.
    */
    method CriarUsuario(nome: string, email: string, senhaPlana: string, hashSenha: string -> string)
      returns (r: Option<Usuario>)
      requires Valid()
      modifies this
      ensures Valid()
      ensures r.None? <==> email in old(Emails(usuarios))
      ensures r.None? ==> Snapshot() == old(Snapshot())
      ensures r.Some? ==>
        && r.value == Usuario(NovoId(old(IdsUsuarios(usuarios))), nome, email, hashSenha(senhaPlana), criacaoPadrao)
        && Snapshot() == old(Snapshot()).(usuarios := old(usuarios) + [r.value])
      ensures forall u :: Balanco(Snapshot(), u) == old(Balanco(Snapshot(), u))
    {
      if email in Emails(usuarios) {
        return None;
      }
      var novo := Usuario(NovoId(IdsUsuarios(usuarios)), nome, email, hashSenha(senhaPlana), criacaoPadrao);
      NovoUsuarioIntegro(Snapshot(), novo);
      usuarios := usuarios + [novo];
      r := Some(novo);
    }

    // -------------------------------------------------------------------------
    // criar_conta

    /**
      Fails on an owner that does not exist (the foreign key). Otherwise stores
      one account, saldo_inicial 0 unless given, with an id above every account
      id ever handed out, and the owner's balance grows by that initial balance.
    */
    method CriarConta(idUsuario: int, nome: string, tipo: string, saldoInicial: Centavos := 0)
      returns (r: Option<Conta>)
      requires Valid()
      modifies this
      ensures Valid()
      ensures r.None? <==> idUsuario !in old(IdsUsuarios(usuarios))
      ensures r.None? ==> Snapshot() == old(Snapshot())
      ensures r.Some? ==>
        && r.value == Conta(NovoId(old(IdsContas(contas) + IdsBackups(contasBackup))), nome, tipo, saldoInicial, idUsuario)
        && Snapshot() == old(Snapshot()).(contas := old(contas) + [r.value])
      ensures forall u :: Balanco(Snapshot(), u)
                == old(Balanco(Snapshot(), u)) + (if r.Some? && u == idUsuario then saldoInicial else 0)
    {
      if idUsuario !in IdsUsuarios(usuarios) {
        return None;
      }
      var nova := Conta(NovoId(IdsContas(contas) + IdsBackups(contasBackup)), nome, tipo, saldoInicial, idUsuario);
      NovaContaIntegra(Snapshot(), nova);
      forall u ensures Balanco(Snapshot().(contas := contas + [nova]), u)
                       == Balanco(Snapshot(), u) + (if u == idUsuario then saldoInicial else 0) {
        BalancoAposNovaConta(Snapshot(), nova, u);
      }
      contas := contas + [nova];
      r := Some(nova);
    }

    // -------------------------------------------------------------------------
    // criar_categoria

    /** Fails on a name already in use (UNIQUE); otherwise stores one category with its kind as written. */
    method CriarCategoria(nome: string, tipo: string) returns (r: Option<Categoria>)
      requires Valid()
      modifies this
      ensures Valid()
      ensures r.None? <==> nome in old(NomesCategorias(categorias))
      ensures r.None? ==> Snapshot() == old(Snapshot())
      ensures r.Some? ==>
        && r.value == Categoria(NovoId(old(IdsCategorias(categorias))), nome, TipoDe(tipo))
        && TextoDe(r.value.tipo) == tipo
        && Snapshot() == old(Snapshot()).(categorias := old(categorias) + [r.value])
    {
      if nome in NomesCategorias(categorias) {
        return None;
      }
      var nova := Categoria(NovoId(IdsCategorias(categorias)), nome, TipoDe(tipo));
      NovaCategoriaIntegra(Snapshot(), nova);
      categorias := categorias + [nova];
      r := Some(nova);
    }

    // -------------------------------------------------------------------------
    // INSERT INTO transacoes and tr_antes_inserir_transacao

    /**
      The insert trigger: reads the kind of the row's category and flips the
      sign of an expense above zero or of an income below zero.
    */
    method AntesDeInserirTransacao(nova: Transacao) returns (ajustada: Transacao)
      ensures ajustada == nova.(valor := ValorNormalizado(TipoDaCategoria(categorias, nova.categoria), nova.valor))
      ensures SinalCoerente(TipoDaCategoria(categorias, nova.categoria), ajustada.valor)
      ensures Abs(ajustada.valor) == Abs(nova.valor)
    {
      var categoriaTipo := TipoDaCategoria(categorias, nova.categoria);
      ajustada := nova;
      if categoriaTipo == Some(Despesa) && nova.valor > 0 {
        ajustada := ajustada.(valor := nova.valor * -1);
      } else if categoriaTipo == Some(Receita) && nova.valor < 0 {
        ajustada := ajustada.(valor := nova.valor * -1);
      }
    }

    /**
      One INSERT INTO transacoes: the trigger adjusts the amount, then the row is
      refused when its account or its category does not exist. The stored row
      moves the balance of its account's owner by the adjusted amount only.
    */
    method InserirTransacao(descricao: string, valor: Centavos, data: Data, conta: int, categoria: int)
      returns (r: Option<Transacao>)
      requires Valid()
      modifies this
      ensures Valid()
      ensures r.None? <==> conta !in old(IdsContas(contas)) || categoria !in old(IdsCategorias(categorias))
      ensures r.None? ==> Snapshot() == old(Snapshot())
      ensures r.Some? ==>
        && r.value == Transacao(NovoId(old(IdsTransacoes(transacoes))), descricao,
                                ValorNormalizado(old(TipoDaCategoria(categorias, categoria)), valor), data, conta, categoria)
        && Snapshot() == old(Snapshot()).(transacoes := old(transacoes) + [r.value])
      ensures forall u :: Balanco(Snapshot(), u)
                == old(Balanco(Snapshot(), u)) + (if r.Some? && old(DonoDaConta(contas, conta)) == Some(u) then r.value.valor else 0)
    {
      var nova := Transacao(NovoId(IdsTransacoes(transacoes)), descricao, valor, data, conta, categoria);
      var ajustada := AntesDeInserirTransacao(nova);
      if conta !in IdsContas(contas) || categoria !in IdsCategorias(categorias) {
        return None;
      }
      NovaTransacaoIntegra(Snapshot(), ajustada);
      forall u ensures Balanco(Snapshot().(transacoes := transacoes + [ajustada]), u)
                       == Balanco(Snapshot(), u) + (if DonoDaConta(contas, conta) == Some(u) then ajustada.valor else 0) {
        BalancoAposTransacao(Snapshot(), ajustada, u);
      }
      transacoes := transacoes + [ajustada];
      r := Some(ajustada);
    }

    // -------------------------------------------------------------------------
    // adicionar_transacao

    /**
      Picks the date (today's when dataStr is None or empty, the parsed one
      otherwise), fails on a date that does not parse, and otherwise performs
      the INSERT.
    */
    method AdicionarTransacao(conta: int, categoria: int, valor: Centavos, descricao: string,
                              dataStr: Option<string>, interpretar: string -> Option<Data>, hoje: Data)
      returns (r: Option<Transacao>)
      requires Valid()
      modifies this
      ensures Valid()
      ensures var data := ResolverData(dataStr, interpretar, hoje);
        r.None? <==> data.None? || conta !in old(IdsContas(contas)) || categoria !in old(IdsCategorias(categorias))
      ensures r.None? ==> Snapshot() == old(Snapshot())
      ensures r.Some? ==>
        && r.value == Transacao(NovoId(old(IdsTransacoes(transacoes))), descricao,
                                ValorNormalizado(old(TipoDaCategoria(categorias, categoria)), valor),
                                ResolverData(dataStr, interpretar, hoje).value, conta, categoria)
        && Snapshot() == old(Snapshot()).(transacoes := old(transacoes) + [r.value])
      ensures forall u :: Balanco(Snapshot(), u)
                == old(Balanco(Snapshot(), u)) + (if r.Some? && old(DonoDaConta(contas, conta)) == Some(u) then r.value.valor else 0)
    {
      var data := ResolverData(dataStr, interpretar, hoje);
      if data.None? {
        return None;
      }
      r := InserirTransacao(descricao, valor, data.value, conta, categoria);
    }

    // -------------------------------------------------------------------------
    // UPDATE usuarios SET email and tr_antes_atualizar_email_usuario

    /** The e-mail trigger: one log row (user, old e-mail, new e-mail) when the e-mail changes, none otherwise. */
    method AntesDeAtualizarEmail(antigo: Usuario, novo: Usuario, agora: Instante)
      requires Valid()
      modifies this`logEmails
      ensures Valid()
      ensures logEmails == old(logEmails) +
        (if antigo.email != novo.email
         then [LogEmail(NovoId(old(IdsLogs(logEmails))), antigo.id, antigo.email, novo.email, agora)]
         else [])
    {
      if antigo.email != novo.email {
        var l := LogEmail(NovoId(IdsLogs(logEmails)), antigo.id, antigo.email, novo.email, agora);
        NovoLogIntegro(Snapshot(), l);
        logEmails := logEmails + [l];
      }
    }

    /**
      UPDATE usuarios SET email = novoEmail WHERE id_usuario = idUsuario. An
      unknown id matches no row and changes nothing; an e-mail held by another
      user is refused by UNIQUE, which also undoes the trigger's log row.
    */
    method AtualizarEmail(idUsuario: int, novoEmail: string, agora: Instante) returns (ok: bool)
      requires Valid()
      modifies this
      ensures Valid()
      ensures var p := old(PosicaoUsuario(usuarios, idUsuario));
        ok <==> p.None? || !EmailDeOutro(old(usuarios), p.value, novoEmail)
      ensures var p := old(PosicaoUsuario(usuarios, idUsuario));
        !ok || p.None? ==> Snapshot() == old(Snapshot())
      ensures var p := old(PosicaoUsuario(usuarios, idUsuario));
        ok && p.Some? ==>
          var antigo := old(usuarios[p.value]);
          Snapshot() == old(Snapshot()).(
            usuarios := old(usuarios)[p.value := antigo.(email := novoEmail)],
            logEmails := old(logEmails) +
              (if antigo.email != novoEmail
               then [LogEmail(NovoId(old(IdsLogs(logEmails))), idUsuario, antigo.email, novoEmail, agora)]
               else []))
    {
      var p := PosicaoUsuario(usuarios, idUsuario);
      if p.None? {
        return true;
      }
      var i := p.value;
      if EmailDeOutro(usuarios, i, novoEmail) {
        return false;
      }
      var antigo := usuarios[i];
      var novo := antigo.(email := novoEmail);
      AntesDeAtualizarEmail(antigo, novo, agora);
      NovoEmailIntegro(Snapshot(), i, novoEmail);
      usuarios := usuarios[i := novo];
      ok := true;
    }

    // -------------------------------------------------------------------------
    // DELETE FROM contas and tr_depois_deletar_conta

    /** The delete trigger: one backup row copying the removed account, stamped with the clock. */
    method DepoisDeExcluirConta(antiga: Conta, agora: Instante)
      requires Valid()
      requires antiga.id !in IdsContas(contas) && antiga.id !in IdsBackups(contasBackup)
      modifies this`contasBackup
      ensures Valid()
      ensures contasBackup == old(contasBackup) +
        [ContaBackup(antiga.id, antiga.nome, antiga.tipo, antiga.saldoInicial, antiga.usuario, agora)]
    {
      var b := ContaBackup(antiga.id, antiga.nome, antiga.tipo, antiga.saldoInicial, antiga.usuario, agora);
      NovoBackupIntegro(Snapshot(), b);
      contasBackup := contasBackup + [b];
    }

    /**
      DELETE FROM contas WHERE id_conta = idConta. An unknown id matches no row;
      an account a transaction or an investment still points at is refused (no
      cascade). A removed account leaves one backup row and takes its initial
      balance off its owner's balance.
    */
    method ExcluirConta(idConta: int, agora: Instante) returns (ok: bool)
      requires Valid()
      modifies this
      ensures Valid()
      ensures var p := old(PosicaoConta(contas, idConta));
        ok <==> p.None? || !old(ContaReferenciada(Snapshot(), idConta))
      ensures var p := old(PosicaoConta(contas, idConta));
        !ok || p.None? ==> Snapshot() == old(Snapshot())
      ensures var p := old(PosicaoConta(contas, idConta));
        ok && p.Some? ==>
          var c := old(contas[p.value]);
          && Snapshot() == old(Snapshot()).(
               contas := old(contas[..p.value] + contas[p.value + 1..]),
               contasBackup := old(contasBackup) + [ContaBackup(c.id, c.nome, c.tipo, c.saldoInicial, c.usuario, agora)])
          && forall u :: Balanco(Snapshot(), u)
               == old(Balanco(Snapshot(), u)) - (if c.usuario == u then c.saldoInicial else 0)
    {
      var p := PosicaoConta(contas, idConta);
      if p.None? {
        return true;
      }
      if ContaReferenciada(Snapshot(), idConta) {
        return false;
      }
      var i := p.value;
      var antiga := contas[i];
      ghost var antes := Snapshot();
      ContaRemovidaIntegra(antes, i);
      forall u ensures Balanco(antes.(contas := contas[..i] + contas[i + 1..]), u)
                       == Balanco(antes, u) - (if antiga.usuario == u then antiga.saldoInicial else 0) {
        BalancoAposExclusao(antes, i, u);
      }
      contas := contas[..i] + contas[i + 1..];
      ghost var meio := Snapshot();
      DepoisDeExcluirConta(antiga, agora);
      assert Snapshot().contas == meio.contas && Snapshot().transacoes == meio.transacoes;
      ok := true;
    }

    // -------------------------------------------------------------------------
    // metas

    /** INSERT INTO metas: fails on an unknown owner; valor_atual starts at 0. */
    method CriarMeta(nome: string, valorObjetivo: Centavos, dataLimite: Option<Data>, idUsuario: int)
      returns (r: Option<Meta>)
      requires Valid()
      modifies this
      ensures Valid()
      ensures r.None? <==> idUsuario !in old(IdsUsuarios(usuarios))
      ensures r.None? ==> Snapshot() == old(Snapshot())
      ensures r.Some? ==>
        && r.value == Meta(NovoId(old(IdsMetas(metas))), nome, valorObjetivo, 0, dataLimite, idUsuario)
        && Snapshot() == old(Snapshot()).(metas := old(metas) + [r.value])
    {
      if idUsuario !in IdsUsuarios(usuarios) {
        return None;
      }
      var nova := Meta(NovoId(IdsMetas(metas)), nome, valorObjetivo, 0, dataLimite, idUsuario);
      NovaMetaIntegra(Snapshot(), nova);
      metas := metas + [nova];
      r := Some(nova);
    }

    /** sp_atualizar_saldo_meta: the UPDATE of the goals table, nothing else. */
    method AtualizarSaldoMeta(metaId: int, valorAdicionado: Centavos)
      requires Valid()
      modifies this
      ensures Valid()
      ensures Snapshot() == old(Snapshot()).(metas := SomarNaMeta(old(metas), metaId, valorAdicionado))
    {
      MetaAtualizadaIntegra(Snapshot(), metaId, valorAdicionado);
      metas := SomarNaMeta(metas, metaId, valorAdicionado);
    }

    // -------------------------------------------------------------------------
    // sp_registrar_transferencia

    /**
      Two INSERTs in a row, each through the insert trigger: -|valor| on the
      origin, booked on the category named "Transferência Saída" (id 1 when
      there is none), then +|valor| on the destination, on "Transferência
      Entrada" (id 2 when there is none). The procedure has no handler, so a
      refused credit leaves the debit stored; ok reports that both were stored.
      Both legs cancel out exactly when the amount is 0 or the two legs were
      flipped alike.
    */
    method RegistrarTransferencia(origem: int, destino: int, valor: Centavos, descricao: string, hoje: Data)
      returns (ok: bool)
      requires Valid()
      modifies this
      ensures Valid()
      ensures Snapshot() == old(Snapshot()).(transacoes := transacoes)
      ensures var catSaida := CategoriaDaTransferencia(old(categorias), NomeTransferenciaSaida, CategoriaSaidaPadrao);
        var catEntrada := CategoriaDaTransferencia(old(categorias), NomeTransferenciaEntrada, CategoriaEntradaPadrao);
        var tipoSaida := TipoDaCategoria(old(categorias), catSaida);
        var tipoEntrada := TipoDaCategoria(old(categorias), catEntrada);
        var debito := Transacao(NovoId(old(IdsTransacoes(transacoes))), "Transferência para " + descricao,
                                ValorNormalizado(tipoSaida, -Abs(valor)), hoje, origem, catSaida);
        var credito := Transacao(NovoId(old(IdsTransacoes(transacoes)) + [debito.id]), "Transferência de " + descricao,
                                 ValorNormalizado(tipoEntrada, Abs(valor)), hoje, destino, catEntrada);
        var debitoAceito := origem in old(IdsContas(contas)) && catSaida in old(IdsCategorias(categorias));
        var creditoAceito := destino in old(IdsContas(contas)) && catEntrada in old(IdsCategorias(categorias));
        && (ok <==> debitoAceito && creditoAceito)
        && transacoes == old(transacoes) + (if debitoAceito then [debito] else []) + (if ok then [credito] else [])
        && (ok ==> (debito.valor + credito.valor == 0 <==> valor == 0 || ((tipoSaida == Some(Receita)) == (tipoEntrada == Some(Despesa)))))
    {
      var catSaida := CategoriaDaTransferencia(categorias, NomeTransferenciaSaida, CategoriaSaidaPadrao);
      var debito := InserirTransacao("Transferência para " + descricao, -Abs(valor), hoje, origem, catSaida);
      if debito.None? {
        return false;
      }
      assert IdsTransacoes(transacoes) == old(IdsTransacoes(transacoes)) + [debito.value.id];
      var catEntrada := CategoriaDaTransferencia(categorias, NomeTransferenciaEntrada, CategoriaEntradaPadrao);
      var credito := InserirTransacao("Transferência de " + descricao, Abs(valor), hoje, destino, catEntrada);
      TransferenciaSomaZero(TipoDaCategoria(categorias, catSaida), TipoDaCategoria(categorias, catEntrada), valor);
      ok := credito.Some?;
    }
  }

  /** The ten categories database/seed.py creates, with the ids they receive in that order. */
  const CategoriasDoSeed: seq<Categoria> := [
    Categoria(1, "Alimentação", Despesa),
    Categoria(2, "Transporte", Despesa),
    Categoria(3, "Moradia", Despesa),
    Categoria(4, "Lazer", Despesa),
    Categoria(5, "Saúde", Despesa),
    Categoria(6, "Transferência Saída", Despesa),
    Categoria(7, "Salário", Receita),
    Categoria(8, "Freelance", Receita),
    Categoria(9, "Investimentos", Receita),
    Categoria(10, "Transferência Entrada", Receita)]

  /** The seed's category names are pairwise different, its ids run 1, 2, ..., 10 and its kinds are canonical. */
  lemma CategoriasDoSeedBemFormadas()
    ensures Distintos(NomesCategorias(CategoriasDoSeed))
    ensures forall k | 0 <= k < |CategoriasDoSeed| :: CategoriasDoSeed[k].id == k + 1 && Canonico(CategoriasDoSeed[k].tipo)
  {
  }

  /**
    The n-th criar_categoria call of a seeding list whose names differ and whose
    ids run 1, 2, ...: on an otherwise empty store holding the first n rows it
    adds row n.
  */
  method SemearCategoria(banco: Banco, semente: seq<Categoria>, n: nat)
    requires n < |semente| && Distintos(NomesCategorias(semente))
    requires forall k | 0 <= k < |semente| :: semente[k].id == k + 1 && Canonico(semente[k].tipo)
    requires banco.Valid() && banco.Snapshot() == TabelasVazias().(categorias := semente[..n])
    modifies banco
    ensures banco.Valid() && banco.Snapshot() == TabelasVazias().(categorias := semente[..n + 1])
  {
    var c := semente[n];
    PassoDaSemente(semente, n);
    var r := banco.CriarCategoria(c.nome, TextoDe(c.tipo));
  }

  /** What the n-th call of SemearCategoria relies on: the next id is n + 1 and the name is unused. */
  lemma PassoDaSemente(semente: seq<Categoria>, n: nat)
    requires n < |semente| && Distintos(NomesCategorias(semente))
    requires forall k | 0 <= k < |semente| :: semente[k].id == k + 1 && Canonico(semente[k].tipo)
    ensures NovoId(IdsCategorias(semente[..n])) == semente[n].id
    ensures semente[n].nome !in NomesCategorias(semente[..n])
    ensures TipoDe(TextoDe(semente[n].tipo)) == semente[n].tipo
    ensures semente[..n + 1] == semente[..n] + [semente[n]]
  {
    var ids := IdsCategorias(semente[..n]);
    if n > 0 {
      assert ids[n - 1] == n;
    }
    forall y | y in ids ensures y <= n {
      var k :| 0 <= k < n && ids[k] == y;
    }
    forall j | 0 <= j < n ensures NomesCategorias(semente[..n])[j] != semente[n].nome {
      assert NomesCategorias(semente)[j] != NomesCategorias(semente)[n];
    }
    TipoDeTexto(semente[n].tipo);
  }

  /** Five consecutive criar_categoria calls of the seed: rows n to n + 4. */
  method SemearGrupo(banco: Banco, semente: seq<Categoria>, n: nat)
    requires n + 5 <= |semente| && Distintos(NomesCategorias(semente))
    requires forall k | 0 <= k < |semente| :: semente[k].id == k + 1 && Canonico(semente[k].tipo)
    requires banco.Valid() && banco.Snapshot() == TabelasVazias().(categorias := semente[..n])
    modifies banco
    ensures banco.Valid() && banco.Snapshot() == TabelasVazias().(categorias := semente[..n + 5])
  {
    SemearCategoria(banco, semente, n);
    SemearCategoria(banco, semente, n + 1);
    SemearCategoria(banco, semente, n + 2);
    SemearCategoria(banco, semente, n + 3);
    SemearCategoria(banco, semente, n + 4);
  }

  /**
    The ten criar_categoria calls of database/seed.py on an empty store: the
    five expense kinds, then the five income kinds.
  */
  method SemearCategorias(banco: Banco, semente: seq<Categoria>)
    requires |semente| == 10 && Distintos(NomesCategorias(semente))
    requires forall k | 0 <= k < |semente| :: semente[k].id == k + 1 && Canonico(semente[k].tipo)
    requires banco.Valid() && banco.Snapshot() == TabelasVazias()
    modifies banco
    ensures banco.Valid() && banco.Snapshot() == TabelasVazias().(categorias := semente)
  {
    assert TabelasVazias() == TabelasVazias().(categorias := semente[..0]);
    SemearGrupo(banco, semente, 0);
    SemearGrupo(banco, semente, 5);
    assert semente[..10] == semente;
  }

  /**
    The seed's criar_usuario and criar_conta calls on a store holding only
    categories: the test user gets id 1 and the account "Carteira" id 1 with 50.00.
  */
  method SemearUsuarioEConta(banco: Banco, hashSenha: string -> string)
    requires banco.Valid() && banco.Snapshot() == TabelasVazias().(categorias := banco.categorias)
    modifies banco
    ensures banco.Valid()
    ensures banco.categorias == old(banco.categorias)
    ensures banco.usuarios == [Usuario(1, "Julius Rock", "julius@doisempregos.com", hashSenha("senha123"), banco.criacaoPadrao)]
    ensures banco.contas == [Conta(1, "Carteira", "Corrente", 5000, 1)]
    ensures banco.transacoes == []
  {
    var usuario := banco.CriarUsuario("Julius Rock", "julius@doisempregos.com", "senha123", hashSenha);
    assert usuario.Some? && usuario.value.id == 1;
    assert IdsUsuarios(banco.usuarios) == [1];
    assert IdsContas(banco.contas) + IdsBackups(banco.contasBackup) == [];
    var conta := banco.CriarConta(1, "Carteira", "Corrente", 5000);
    assert conta.Some?;
    assert conta.value == Conta(1, "Carteira", "Corrente", 5000, 1);
  }

  /**
    database/seed.py on an empty store: the ten categories, the test user
    (id 1) and the account "Carteira" (id 1) with 50.00.
  */
  method PrepararSeed(hashSenha: string -> string, agora: Instante) returns (banco: Banco)
    ensures fresh(banco) && banco.Valid()
    ensures banco.categorias == CategoriasDoSeed
    ensures banco.usuarios == [Usuario(1, "Julius Rock", "julius@doisempregos.com", hashSenha("senha123"), agora)]
    ensures banco.contas == [Conta(1, "Carteira", "Corrente", 5000, 1)]
    ensures banco.transacoes == []
  {
    VaziasIntegras();
    banco := new Banco(TabelasVazias(), agora);
    CategoriasDoSeedBemFormadas();
    SemearCategorias(banco, CategoriasDoSeed);
    SemearUsuarioEConta(banco, hashSenha);
  }

  /**
    The seed's adicionar_transacao(1, 1, -15.50, "Lanche", "2025-11-01") on a
    store whose only account is "Carteira" with 50.00 and whose category 1 is
    an expense: the amount keeps its sign and the user's balance becomes 34.50.
  */
  method LancarLanche(banco: Banco, interpretar: string -> Option<Data>, hoje: Data) returns (balanco: Centavos)
    requires interpretar("2025-11-01") == Some(Data(2025, 11, 1))
    requires banco.Valid() && TipoDaCategoria(banco.categorias, 1) == Some(Despesa)
    requires banco.contas == [Conta(1, "Carteira", "Corrente", 5000, 1)] && banco.transacoes == []
    modifies banco
    ensures banco.Valid()
    ensures banco.categorias == old(banco.categorias) && banco.contas == old(banco.contas)
    ensures banco.transacoes == [Transacao(1, "Lanche", -1550, Data(2025, 11, 1), 1, 1)]
    ensures balanco == Balanco(banco.Snapshot(), 1) && balanco == 3450
  {
    assert IdsContas(banco.contas) == [1];
    var transacao := banco.AdicionarTransacao(1, 1, -1550, "Lanche", Some("2025-11-01"), interpretar, hoje);
    assert transacao.Some? && transacao.value.valor == -1550 && transacao.value.conta == 1;
    assert banco.transacoes == [transacao.value];
    assert banco.contas == [Conta(1, "Carteira", "Corrente", 5000, 1)];
    assert SomaSaldos(banco.contas, 1) == 5000;
    assert DonoDaConta(banco.contas, 1) == Some(1);
    assert SomaTransacoes(banco.transacoes, banco.contas, 1) == -1550;
    balanco := Balanco(banco.Snapshot(), 1);
  }

  /**
    database/seed.py from an empty store to the end: the seeded store holds the
    one expense row, and the test user's balance in it is 34.50.
  */
  method CenarioDoSeed(hashSenha: string -> string, interpretar: string -> Option<Data>, hoje: Data, agora: Instante)
    returns (banco: Banco, balanco: Centavos)
    requires interpretar("2025-11-01") == Some(Data(2025, 11, 1))
    ensures fresh(banco) && banco.Valid()
    ensures banco.categorias == CategoriasDoSeed
    ensures banco.contas == [Conta(1, "Carteira", "Corrente", 5000, 1)]
    ensures banco.transacoes == [Transacao(1, "Lanche", -1550, Data(2025, 11, 1), 1, 1)]
    ensures balanco == Balanco(banco.Snapshot(), 1) && balanco == 3450
  {
    banco := PrepararSeed(hashSenha, agora);
    PorIdNoSeed(banco.categorias, 0);
    balanco := LancarLanche(banco, interpretar, hoje);
  }

  /**
    In the seeded store sp_registrar_transferencia finds both of its categories
    by name ("Transferência Saída", id 6, an expense, and "Transferência
    Entrada", id 10, an income), so its two legs always cancel out.
  */
  lemma TransferenciaNoSeed(s: seq<Categoria>, v: Centavos)
    requires s == CategoriasDoSeed
    ensures CategoriaDaTransferencia(s, NomeTransferenciaSaida, CategoriaSaidaPadrao) == 6
    ensures CategoriaDaTransferencia(s, NomeTransferenciaEntrada, CategoriaEntradaPadrao) == 10
    ensures TipoDaCategoria(s, 6) == Some(Despesa) && TipoDaCategoria(s, 10) == Some(Receita)
    ensures ValorNormalizado(TipoDaCategoria(s, 6), -Abs(v)) + ValorNormalizado(TipoDaCategoria(s, 10), Abs(v)) == 0
  {
    CategoriasDoSeedBemFormadas();
    PorNomeNoSeed(s, NomeTransferenciaSaida, 5, CategoriaSaidaPadrao);
    PorNomeNoSeed(s, NomeTransferenciaEntrada, 9, CategoriaEntradaPadrao);
    PorIdNoSeed(s, 5);
    PorIdNoSeed(s, 9);
    TransferenciaSomaZero(Some(Despesa), Some(Receita), v);
  }

  /** Looking a name of the seed up gives the id of its one row. */
  lemma PorNomeNoSeed(s: seq<Categoria>, nome: string, k: nat, padrao: int)
    requires s == CategoriasDoSeed
    requires k < |s| && s[k].nome == nome
    ensures CategoriaDaTransferencia(s, nome, padrao) == k + 1
  {
    CategoriasDoSeedBemFormadas();
    assert NomesCategorias(s)[k] == nome;
    var c :| c in s && c.nome == nome && c.id == CategoriaDaTransferencia(s, nome, padrao);
    var j :| 0 <= j < |s| && s[j] == c;
    assert NomesCategorias(s)[j] == nome;
  }

  /** Looking an id of the seed up gives its row's kind. */
  lemma PorIdNoSeed(s: seq<Categoria>, k: nat)
    requires s == CategoriasDoSeed
    requires k < |s|
    ensures TipoDaCategoria(s, k + 1) == Some(s[k].tipo)
  {
    CategoriasDoSeedBemFormadas();
    assert IdsCategorias(s)[k] == k + 1;
    var c :| c in s && c.id == k + 1 && Some(c.tipo) == TipoDaCategoria(s, k + 1);
    var j :| 0 <= j < |s| && s[j] == c;
  }
}
