/**
 * constants.tsx: the team the application starts with, used as concrete cases of the
 * aggregation, the classification and the sign-in. The random history of
 * `generateMockEntries` is replaced by fixed entries.
 */
module Fixtures {
  import opened Wrappers
  import Seqs
  import opened Types
  import opened Calculator
  import opened AppComponent
  import opened LoginComponent

  const InitialWeek: int := 4

  function Input(key: string, labelText: string): InputConfig
  {
    InputConfig(key, labelText, None)
  }

  function Cumulative(id: string, title: string, target: real, totalKey: string, totalLabel: string,
                      partKey: string, partLabel: string): Metric
  {
    Metric(id, title, target, PercentageCumulative, "%", None, [Input(totalKey, totalLabel), Input(partKey, partLabel)])
  }

  const RafaelCpa: Metric := Cumulative("m_rafael_1", "Contas com CPA reduzido", 60.0,
    "total_accounts", "Em quantas contas você trabalhou esta semana?",
    "reduced_accounts", "Quantas tiveram redução clara de CPA?")

  const LeandroAudits: Metric := Metric("m_leandro_1", "Auditorias pagas agendadas", 12.0, SumTarget, "un", None,
    [Input("audits_scheduled", "Novas auditorias pagas agendadas")])

  const JoelBills: Metric := Metric("m_joel_2", "Contas da empresa em dia", 95.0, PercentageAverage, "%", None,
    [Input("on_time_percentage", "% de contas pagas sem atraso esta semana")])

  function Member(id: string, name: string, seed: string, role: UserRole, roleTitle: string, password: string, metrics: seq<Metric>): User
  {
    User(id, name, role, "https://picsum.photos/seed/" + seed + "/150/150", roleTitle, metrics, Some(password))
  }

  const Rafael: User := Member("u1", "Rafael", "rafael", Contributor, "Tráfego Pago", "123", [RafaelCpa])
  const Kaua: User := Member("u2", "Kauã", "kaua", Contributor, "Automação & IA", "123",
    [Cumulative("m_kaua_1", "Demandas atendidas em < 48h", 90.0,
       "total_demands", "Quantas demandas você recebeu/finalizou?",
       "fast_demands", "Quantas foram resolvidas em menos de 48h úteis?")])
  const Kevin: User := Member("u3", "Kevin", "kevin", Contributor, "Design & Edição", "123",
    [Cumulative("m_kevin_1", "Entregas dentro do prazo", 90.0,
       "total_deliveries", "Total de entregas realizadas",
       "on_time_deliveries", "Quantas foram entregues no prazo estipulado?")])
  const Arthur: User := Member("u7", "Arthur", "arthur", Contributor, "Copywriter", "123",
    [Cumulative("m_arthur_1", "Qualidade Copy (Aprovadas 1ª)", 80.0,
       "total_copies", "Copys entregues", "approved_copies", "Aprovadas sem refação")])
  const Leandro: User := Member("u4", "Leandro", "leandro", Partner, "Sócio / Comercial", "admin",
    [LeandroAudits,
     Cumulative("m_leandro_2", "Conversão Auditoria -> CORE", 25.0,
       "audits_performed", "Auditorias realizadas", "core_closed", "Vendas de CORE fechadas"),
     Metric("m_leandro_3", "Conteúdos Publicados", 35.0, SumTarget, "un", None,
       [Input("content_count", "Conteúdos publicados (YT+LI+IG)")])])
  const Joel: User := Member("u5", "Joel", "joel", Partner, "Sócio / Financeiro / SDR", "admin",
    [Cumulative("m_joel_1", "Taxa de Aceite Diagnóstico", 60.0,
       "contacts_made", "Contatos realizados", "diagnostics_accepted", "Diagnósticos aceitos"),
     JoelBills])

  const Adriano: User := Member("u6", "Adriano", "adriano", Partner, "Sócio / PM / CS", "admin",
    [Cumulative("m_adriano_1", "Projetos no prazo", 90.0,
       "total_projects", "Projetos ativos/entregues", "on_track_projects", "Projetos dentro do cronograma"),
     Metric("m_adriano_2", "NPS Médio", 8.0, PercentageAverage, "pts", None,
       [Input("current_nps", "NPS medido esta semana")])])

  const MockUsers: seq<User> := [Rafael, Kaua, Kevin, Arthur, Leandro, Joel, Adriano]

  /** The starting state; the random history of weeks 1 to 3 is supplied by the caller. */
  function InitialState(entries: map<string, seq<WeeklyData>>): AppState
  {
    AppState(MockUsers, entries, map[], InitialWeek)
  }

  /** An entry as the check-in saves it: tagged, with its numbers in form order. */
  function Entry(week: int, metricId: string, fields: seq<Field>): WeeklyData
  {
    WeeklyData(week, Inputs(Some(metricId), fields), 0.0, "")
  }

  /** Rafael's week: 5 of 10 accounts with reduced CPA. */
  const RafaelWeek: seq<Field> := [Field("total_accounts", Finite(10.0)), Field("reduced_accounts", Finite(5.0))]

  lemma SumOfTwo<T>(a: T, b: T, f: T -> real)
    ensures Seqs.Sum([a, b], f) == f(a) + f(b)
  {
    assert [a, b][..1] == [a];
    assert [a][..0] == [];
    assert Seqs.Sum([a], f) == Seqs.Sum([], f) + f(a);
  }

  lemma RafaelWeekReadings(week: int)
    ensures HasTwoNumbers(Entry(week, "m_rafael_1", RafaelWeek))
    ensures PairedReading(Entry(week, "m_rafael_1", RafaelWeek), "total_accounts") == 10.0
    ensures PairedReading(Entry(week, "m_rafael_1", RafaelWeek), "reduced_accounts") == 5.0
  {
    assert Keys(RafaelWeek) == {"total_accounts", "reduced_accounts"} by {
      assert RafaelWeek[1..][1..] == [];
    }
    assert Get(RafaelWeek, "reduced_accounts") == Some(Finite(5.0)) by {
      assert RafaelWeek[1..][0].key == "reduced_accounts";
    }
  }

  /** Rafael reduced CPA in 5 of 10 accounts in each of two weeks: 50% against 60% is at risk. */
  lemma RafaelAtRisk()
    ensures MetricStatus(RafaelCpa, [Entry(1, "m_rafael_1", RafaelWeek), Entry(2, "m_rafael_1", RafaelWeek)])
      == Computed(50.0, Yellow)
  {
    var e1, e2 := Entry(1, "m_rafael_1", RafaelWeek), Entry(2, "m_rafael_1", RafaelWeek);
    var es := [e1, e2];
    assert MetricEntries(RafaelCpa, es) == es;
    RafaelWeekReadings(1);
    RafaelWeekReadings(2);
    SumOfTwo(e1, e2, PairedReadingOf("total_accounts"));
    SumOfTwo(e1, e2, PairedReadingOf("reduced_accounts"));
    assert Ratio(SumPairedReadings(es, "reduced_accounts"), SumPairedReadings(es, "total_accounts")) == 50.0;
  }

  /** Four audits by week 4 of a 12-audit quarter is ahead of the pace of 12/13 a week. */
  lemma LeandroOnPace()
    ensures MetricStatus(LeandroAudits, [Entry(4, "m_leandro_1", [Field("audits_scheduled", Finite(4.0))])])
      == Computed(4.0, Green)
  {
    var es := [Entry(4, "m_leandro_1", [Field("audits_scheduled", Finite(4.0))])];
    assert MetricEntries(LeandroAudits, es) == es;
    assert es[..0] == [];
    assert MaxWeek(es) == 4;
  }

  /** One audit by week 3 is below 70% of the expected 36/13: critical. */
  lemma LeandroBehind()
    ensures MetricStatus(LeandroAudits, [
      Entry(2, "m_leandro_1", [Field("audits_scheduled", Finite(1.0))]),
      Entry(3, "m_leandro_1", [Field("audits_scheduled", Finite(0.0))])]).status == Red
  {
    var e1 := Entry(2, "m_leandro_1", [Field("audits_scheduled", Finite(1.0))]);
    var e2 := Entry(3, "m_leandro_1", [Field("audits_scheduled", Finite(0.0))]);
    var es := [e1, e2];
    assert MetricEntries(LeandroAudits, es) == es;
    SumOfTwo(e1, e2, ReadingOf("audits_scheduled"));
    assert es[..1] == [e1] && es[..1][..0] == [];
    assert MaxWeek(es) == 3;
  }

  /** A MAX_LIMIT of 7 days: a mean of 8.4 is still at risk, 8.41 is critical. */
  lemma DecisionTimeBoundary()
    ensures Classify(MaxLimit, 8.4, 7.0, 1) == Yellow
    ensures Classify(MaxLimit, 8.41, 7.0, 1) == Red
  {
  }

  /** Entries of another metric leave Joel's bills metric without data. */
  lemma JoelWithoutBills()
    ensures MetricStatus(JoelBills, [Entry(1, "m_joel_1", [Field("contacts_made", Finite(3.0)), Field("diagnostics_accepted", Finite(2.0))])])
      == Computed(0.0, Gray)
  {
    var es := [Entry(1, "m_joel_1", [Field("contacts_made", Finite(3.0)), Field("diagnostics_accepted", Finite(2.0))])];
    assert MetricEntries(JoelBills, es) == [] by {
      assert es[1..] == [];
    }
  }

  /** A user whose lowercased name and title lack an "ó" does not match the query "Sócio". */
  lemma NoLoweredMatch(u: User, lower: string -> string)
    requires lower("Sócio") == "sócio"
    requires 'ó' !in lower(u.name) && 'ó' !in lower(u.roleTitle)
    ensures !LoginMatches(lower, "Sócio")(u)
  {
    Seqs.ContainsNeedsElem(lower(u.name), "sócio", 1);
    Seqs.ContainsNeedsElem(lower(u.roleTitle), "sócio", 1);
  }

  /** Leandro's lowercased title "sócio / comercial" begins with the lowercased query. */
  lemma LeandroMatches(lower: string -> string)
    requires lower("Sócio") == "sócio" && lower("Sócio / Comercial") == "sócio / comercial"
    ensures LoginMatches(lower, "Sócio")(Leandro)
  {
    assert Seqs.IsPrefix("sócio", "sócio / comercial");
    assert Seqs.Contains("sócio / comercial", "sócio");
    assert Leandro.roleTitle == "Sócio / Comercial";
  }

  /**
   * With any `toLowerCase` that lowercases the query and the first five users' names and
   * titles, "Sócio" matches no contributor, so sign-in checks Leandro, the first partner,
   * and routes him to the cockpit.
   */
  lemma PartnerSignIn(users: seq<User>, lower: string -> string)
    requires users == MockUsers
    requires lower("Sócio") == "sócio" && lower("Sócio / Comercial") == "sócio / comercial"
    requires lower("Rafael") == "rafael" && lower("Tráfego Pago") == "tráfego pago"
    requires lower("Kauã") == "kauã" && lower("Automação & IA") == "automação & ia"
    requires lower("Kevin") == "kevin" && lower("Design & Edição") == "design & edição"
    requires lower("Arthur") == "arthur" && lower("Copywriter") == "copywriter"
    ensures LoginLookup(users, lower, "Sócio") == Some(Leandro)
    ensures LoginSucceeds(users, lower, "Sócio", "admin")
    ensures !LoginSucceeds(users, lower, "Sócio", "123")
    ensures ViewFor(Leandro.role) == DashboardView
  {
    assert Rafael.name == "Rafael" && Rafael.roleTitle == "Tráfego Pago";
    NoLoweredMatch(Rafael, lower);
    assert Kaua.name == "Kauã" && Kaua.roleTitle == "Automação & IA";
    NoLoweredMatch(Kaua, lower);
    assert Kevin.name == "Kevin" && Kevin.roleTitle == "Design & Edição";
    NoLoweredMatch(Kevin, lower);
    assert Arthur.name == "Arthur" && Arthur.roleTitle == "Copywriter";
    NoLoweredMatch(Arthur, lower);
    LeandroMatches(lower);
    FirstPartnerFound(users, LoginMatches(lower, "Sócio"));
  }

  /** A search that skips the four contributors and matches Leandro returns Leandro. */
  lemma FirstPartnerFound(users: seq<User>, p: User -> bool)
    requires users == MockUsers
    requires !p(Rafael) && !p(Kaua) && !p(Kevin) && !p(Arthur) && p(Leandro)
    ensures Seqs.Find(users, p) == Some(Leandro)
  {
    assert users[0] == Rafael && users[1] == Kaua && users[2] == Kevin;
    assert users[3] == Arthur && users[4] == Leandro;
    Seqs.FindIsFirst(users, p, 4);
  }
}
