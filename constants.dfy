/** The seed data of the application (constants.ts): the style options, the team with its
    hourly rates, and the catalogue templates a new cost simulation starts from. */
module Constants {
  import opened Wrappers
  import opened Domain

  /** `PROJECT_STYLE_OPTIONS`; the first one is the default style. */
  function ProjectStyleOptions(): seq<string> {
    ["Padrão", "Luxo", "Comercial Simplificado", "Consultoria Express"]
  }

  function DefaultProjectStyle(): string {
    ProjectStyleOptions()[0]
  }

  /** `MOCK_TEAM_MEMBERS`, the office principal first. */
  function MockTeamMembers(): seq<TeamMember> {
    [
      TeamMember("user-clarissa", "Clarissa Dario", Some("Arquiteta Principal"), Some(150.0)),
      TeamMember("user-socio1", "Sócio 01 (Ana)", Some("Sócio Arquiteto"), Some(97.22)),
      TeamMember("user-socio2", "Sócio 02 (Bruno)", Some("Sócio Administrador"), Some(97.22)),
      TeamMember("user-arqjunior", "Arq. Júnior (Carlos)", Some("Arquiteto Júnior"), Some(25.52)),
      TeamMember("user-estagiario1", "Estagiário 01 (Diana)", Some("Estagiário de Arquitetura"), Some(9.33)),
      TeamMember("user-estagiario2", "Estagiário 02 (Eduardo)", Some("Estagiário de Design"), Some(9.33)),
      TeamMember("por-elas", "Por Elas (Terceirizado)", Some("Serviços Terceirizados"), Some(35.00))
    ]
  }

  /** The settings entry of one team member: `role || 'Membro da Equipe'`, `hourlyRate || 0`. */
  function TeamMemberConfigOf(m: TeamMember): (c: TeamMemberConfig)
    ensures c.id == m.id && c.name == m.name
    ensures c.role == (if IsTruthy(m.role) then m.role.value else "Membro da Equipe")
    ensures c.hourlyRate == (if m.hourlyRate.Some? && m.hourlyRate.value != 0.0 then m.hourlyRate.value else 0.0)
  {
    TeamMemberConfig(m.id, m.name, OrElse(m.role, "Membro da Equipe"), NumOr(m.hourlyRate, 0.0))
  }

  /** `members.map(...)`: one settings entry per member, in the same order. */
  function TeamMemberConfigsOf(members: seq<TeamMember>): (r: seq<TeamMemberConfig>)
    ensures |r| == |members|
    ensures forall i :: 0 <= i < |members| ==> r[i] == TeamMemberConfigOf(members[i])
  {
    if members == [] then [] else [TeamMemberConfigOf(members[0])] + TeamMemberConfigsOf(members[1..])
  }

  /** `DEFAULT_TEAM_MEMBER_CONFIGS_TEMPLATE`. */
  function TeamMemberConfigsTemplate(): seq<TeamMemberConfig> {
    TeamMemberConfigsOf(MockTeamMembers())
  }

  /** `DEFAULT_OFFICE_COST_CONFIGS_TEMPLATE`: the office fixed-cost catalogue, none archived. */
  function OfficeCostConfigsTemplate(): seq<OfficeCostConfig> {
    [
      OfficeCostConfig("config-fixed-aluguel", "Aluguel/Prestação Escritório", 1600.0, false),
      OfficeCostConfig("config-fixed-condominio", "Condomínio Escritório", 400.0, false),
      OfficeCostConfig("config-fixed-seguro", "Seguro Escritório", 100.0, false),
      OfficeCostConfig("config-fixed-iptu", "IPTU Escritório", 100.0, false),
      OfficeCostConfig("config-fixed-luz", "Luz", 120.0, false),
      OfficeCostConfig("config-fixed-internet", "Internet", 100.0, false),
      OfficeCostConfig("config-fixed-agua", "Água", 60.0, false),
      OfficeCostConfig("config-fixed-contador", "Contador", 150.0, false),
      OfficeCostConfig("config-fixed-faxina", "Faxina", 200.0, false),
      OfficeCostConfig("config-fixed-compras", "Compras (café, material limpeza)", 300.0, false),
      OfficeCostConfig("config-fixed-assinaturas", "Assinaturas (software, etc)", 80.0, false),
      OfficeCostConfig("config-fixed-software-lic", "Softwares/Licenças (valor mensalizado)", 400.0, false),
      OfficeCostConfig("config-fixed-social-media", "Social Media", 1000.0, false),
      OfficeCostConfig("config-fixed-gestor-trafego", "Gestor de Tráfego", 1300.0, false),
      OfficeCostConfig("config-fixed-trafego-anuncios", "Tráfego/Anúncios", 1000.0, false),
      OfficeCostConfig("config-fixed-gasolina-geral", "Gasolina (geral escritório)", 400.0, false)
    ]
  }

  /** `DEFAULT_COMPLEXITY_FACTORS_TEMPLATE`: every factor at 0% and not applied. */
  function ComplexityFactorsTemplate(): seq<ComplexityFactor> {
    [
      ComplexityFactor("complex-topo", "Topografia", 0.0, false),
      ComplexityFactor("complex-condo", "Condomínio Difícil Aprovação", 0.0, false),
      ComplexityFactor("complex-metodo", "Método Construtivo Complexo", 0.0, false),
      ComplexityFactor("complex-escada", "Tipologia de Escada", 0.0, false),
      ComplexityFactor("complex-programa", "Programa de Necessidades Extenso", 0.0, false),
      ComplexityFactor("complex-horario", "Horário Não Comercial para Reunião", 0.0, false),
      ComplexityFactor("complex-prazo", "Prazo Curto", 0.0, false),
      ComplexityFactor("complex-equipe-extra", "Equipe Extra (Consultores)", 0.0, false),
      ComplexityFactor("complex-sem-estudo-solo", "Não tem Estudo de Solo", 0.0, false),
      ComplexityFactor("complex-sem-estudo-topo", "Não tem Estudo de Topografia", 0.0, false),
      ComplexityFactor("complex-automacao", "Automação", 0.0, false),
      ComplexityFactor("complex-sustentabilidade", "Sustentabilidade", 0.0, false),
      ComplexityFactor("complex-imagens-realistas", "Imagens Ultra Realistas Adicionais", 0.0, false)
    ]
  }

  /** `DEFAULT_PROJECT_DETAILED_STAGES_TEMPLATE`: six stages, only the first expanded. */
  function DetailedStagesTemplate(): seq<Stage> {
    [TemplateStage1(), TemplateStage2(), TemplateStage3(), TemplateStage4(), TemplateStage5(), TemplateStage6()]
  }

  function TemplateStage1(): Stage {
    Stage("template-stage-1", "ETAPA 01 - CONTATO E ORGANIZAÇÃO", [
      StageItem("template-item-1-1", "PRIMEIRO CONTATO - PRÉ-BRIEFING", Some("por-elas"), Some(1.0)),
      StageItem("template-item-1-2", "FICHA DE CADASTRO", Some("user-clarissa"), Some(0.5)),
      StageItem("template-item-1-3", "VISITA IN LOCO", Some("user-clarissa"), Some(0.5)),
      StageItem("template-item-1-4", "ELABORAÇÃO E APRESENTAÇÃO DA PROPOSTA DE PROJETO", Some("por-elas"), Some(0.75)),
      StageItem("template-item-1-5", "ORGANIZAÇÃO DE PASTAS E ARQUIVOS", Some("user-clarissa"), Some(0.5)),
      StageItem("template-item-1-6", "CONTRATO", Some("user-clarissa"), Some(0.5))
    ], false)
  }

  function TemplateStage2(): Stage {
    Stage("template-stage-2", "ETAPA 02 - ESTUDO PRELIMINAR", [
      StageItem("template-item-2-1", "ELABORAÇÃO E ESTUDO DO BRIEFING", Some("por-elas"), Some(1.5)),
      StageItem("template-item-2-2", "LEVANTAMENTO IN LOCO", Some("user-clarissa"), Some(1.0)),
      StageItem("template-item-2-3", "PASSAGEM DO LEVANTAMENTO A LIMPO", Some("user-clarissa"), Some(2.0)),
      StageItem("template-item-2-4", "PESQUISA DE REFERÊNCIAS", Some("por-elas"), Some(0.5)),
      StageItem("template-item-2-5", "PRIMEIROS ESTUDOS/CROQUIS", Some("user-clarissa"), Some(1.5)),
      StageItem("template-item-2-6", "ESTUDO DE LAYOUT E/OU IMPLANTAÇÃO", Some("user-clarissa"), Some(1.5)),
      StageItem("template-item-2-7", "MOOD BOARD", Some("por-elas"), Some(1.0)),
      StageItem("template-item-2-8", "DESENVOLVIMENTO PLANTA LAYOUT", Some("por-elas"), Some(1.0)),
      StageItem("template-item-2-9", "MONTAGEM DO ESTUDO PRELIMINAR E APRESENTAÇÃO", Some("por-elas"), Some(1.0)),
      StageItem("template-item-2-10", "ATA DE APROVAÇÃO", Some("user-clarissa"), Some(0.5))
    ], true)
  }

  function TemplateStage3(): Stage {
    Stage("template-stage-3", "ETAPA 03 - ANTEPROJETO", [
      StageItem("template-item-3-1", "MODELAGEM 3D", Some("por-elas"), Some(3.0)),
      StageItem("template-item-3-2", "RENDERIZAÇÃO E PRODUÇÃO IMAGENS", Some("user-clarissa"), Some(3.0)),
      StageItem("template-item-3-3", "MONTAGEM E APRESENTAÇÃO DO ANTEPROJETO", Some("user-clarissa"), Some(1.0)),
      StageItem("template-item-3-4", "PERÍODO DE ALTERAÇÕES", Some("por-elas"), Some(2.0)),
      StageItem("template-item-3-5", "ATA DE APROVAÇÃO", Some("user-clarissa"), Some(0.5))
    ], true)
  }

  function TemplateStage4(): Stage {
    Stage("template-stage-4", "ETAPA 04 - PLANTAS GERAIS", [
      StageItem("template-item-4-1", "PLANTA DEMOLIR E CONSTRUIR", Some("user-clarissa"), Some(1.0)),
      StageItem("template-item-4-2", "PLANTA PAGINAÇÃO DE PISO", Some("por-elas"), Some(1.0)),
      StageItem("template-item-4-3", "PLANTA PONTOS HIDRÁULICOS", Some("user-clarissa"), Some(0.5)),
      StageItem("template-item-4-4", "PLANTA PONTOS ELÉTRICOS", Some("por-elas"), Some(1.5)),
      StageItem("template-item-4-5", "PLANTA ILUMINAÇÃO", Some("user-clarissa"), Some(1.5)),
      StageItem("template-item-4-6", "PLANTA CIRCUITOS", Some("por-elas"), Some(1.5)),
      StageItem("template-item-4-7", "PLANTA FORRO E DETALHES", Some("user-clarissa"), Some(1.0)),
      StageItem("template-item-4-8", "REVISÃO DO DETALHAMENTO", Some("por-elas"), Some(1.0)),
      StageItem("template-item-4-9", "GERAR ARQUIVOS PDF", Some("user-clarissa"), Some(0.0))
    ], true)
  }

  function TemplateStage5(): Stage {
    Stage("template-stage-5", "ETAPA 05 - DETALHAMENTO ESPECÍFICO", [
      StageItem("template-item-5-1", "PLANTA LAYOUT E COTADA", Some("user-clarissa"), Some(1.0)),
      StageItem("template-item-5-2", "PLANTA DE ACABAMENTOS E MOBILIÁRIOS", Some("por-elas"), Some(3.0)),
      StageItem("template-item-5-3", "ELEVAÇÕES HUMANIZADAS E COTADAS", Some("user-clarissa"), Some(3.0)),
      StageItem("template-item-5-4", "PAGINAÇÃO DE PAREDES EM ELEVAÇÕES", Some("por-elas"), Some(1.5)),
      StageItem("template-item-5-5", "DETALHAMENTO DE MARCENARIA", Some("por-elas"), Some(6.0)),
      StageItem("template-item-5-6", "DETALHAMENTO DE MARMORARIA", Some("user-clarissa"), Some(2.0)),
      StageItem("template-item-5-7", "TABELAS DE QUANTITATIVO", Some("por-elas"), Some(1.0)),
      StageItem("template-item-5-8", "MONTAGEM FINAL DO DETALHAMENTO", Some("user-clarissa"), Some(1.5)),
      StageItem("template-item-5-9", "REVISÃO DO DETALHAMENTO", Some("user-clarissa"), Some(1.5)),
      StageItem("template-item-5-10", "GERAR ARQUIVOS PDF PARA IMPRESSÃO", Some("por-elas"), Some(0.5)),
      StageItem("template-item-5-11", "MONTAGEM DO KIT PROJETO", Some("user-clarissa"), Some(0.0)),
      StageItem("template-item-5-12", "REUNIÃO DE ENTREGA FINAL", Some("por-elas"), Some(1.0))
    ], true)
  }

  function TemplateStage6(): Stage {
    Stage("template-stage-6", "ETAPA 06 - ACOMPANHAMENTO DE OBRA", [
      StageItem("template-item-6-1", "PLANILHA COM ORÇAMENTOS DE FORNECEDORES", Some("user-clarissa"), Some(0.0)),
      StageItem("template-item-6-2", "CRONOGRAMA DE OBRAS", Some("user-clarissa"), Some(0.0)),
      StageItem("template-item-6-3", "FECHAMENTO DE ORÇAMENTOS PARA EXECUÇÃO", Some("user-clarissa"), Some(0.0)),
      StageItem("template-item-6-4", "REUNIÃO COM CLIENTE / FORNECEDORES", Some("user-clarissa"), Some(0.0)),
      StageItem("template-item-6-5", "VISITA EM LOJAS/FORNECEDORES", Some("user-clarissa"), Some(0.0)),
      StageItem("template-item-6-6", "VISITA EM OBRAS", Some("user-clarissa"), Some(0.0)),
      StageItem("template-item-6-7", "CUSTO DE DESLOCAMENTO", Some("user-clarissa"), Some(0.0))
    ], true)
  }

  // ---------------------------------------------------------------- invariants of the seed data

  /** Every template factor is at 0% and not applied. */
  lemma ComplexityTemplateInert()
    ensures forall f :: f in ComplexityFactorsTemplate() ==> f.percentage == 0.0 && !f.isApplied
  {
  }

  /** A member with a non-empty role and a non-zero rate. */
  predicate FullyDescribed(m: TeamMember) {
    m.role.Some? && m.role.value != "" && m.hourlyRate.Some? && m.hourlyRate.value != 0.0
  }

  /** Each settings entry carries its member's id, name, role and rate. */
  predicate KeepsOwnDetails(configs: seq<TeamMemberConfig>, members: seq<TeamMember>) {
    |configs| == |members| &&
    forall i :: 0 <= i < |members| ==>
      members[i].role.Some? && members[i].hourlyRate.Some? &&
      configs[i].id == members[i].id && configs[i].name == members[i].name &&
      configs[i].role == members[i].role.value && configs[i].hourlyRate == members[i].hourlyRate.value
  }

  /** Fully described members keep their own role and rate in the settings entries. */
  lemma {:induction false} ConfigsKeepRates(members: seq<TeamMember>)
    requires forall i :: 0 <= i < |members| ==> FullyDescribed(members[i])
    ensures KeepsOwnDetails(TeamMemberConfigsOf(members), members)
  {
    var r := TeamMemberConfigsOf(members);
    forall i | 0 <= i < |members|
      ensures r[i].role == members[i].role.value && r[i].hourlyRate == members[i].hourlyRate.value
    {
      assert FullyDescribed(members[i]);
    }
  }

  /** The mock team has a role and a non-zero rate for everyone, so the settings template
      takes each member's own role and rate. */
  lemma TeamMemberConfigsTemplateKeepsRates()
    ensures KeepsOwnDetails(TeamMemberConfigsTemplate(), MockTeamMembers())
  {
    var ms := MockTeamMembers();
    assert FullyDescribed(ms[0]) && FullyDescribed(ms[1]) && FullyDescribed(ms[2]) && FullyDescribed(ms[3]);
    assert FullyDescribed(ms[4]) && FullyDescribed(ms[5]) && FullyDescribed(ms[6]);
    ConfigsKeepRates(ms);
  }

  /** Stage `k` of the template (counted from 0): its id is `template-stage-` and the stage
      number `k + 1`; its item ids carry the stage number right after the common prefix
      `template-item-` and end in the last digit of the item's position (counted from 1),
      with one more character from the tenth item on; and it has at most 12 items, each
      staffed by the office principal or the outsourced team. */
  predicate StageTagged(stage: Stage, k: nat)
    requires k < 6
  {
    |stage.id| == 16 && stage.id[15] == "123456"[k] &&
    |stage.items| <= 12 &&
    forall j :: 0 <= j < |stage.items| ==> ItemTagged(stage.items[j], k, j + 1)
  }

  /** The item at position `pos` (counted from 1) of template stage `k`, as `StageTagged`
      describes it. */
  predicate ItemTagged(item: StageItem, k: nat, pos: nat)
    requires k < 6
  {
    |item.id| == (if pos < 10 then 17 else 18) &&
    item.id[14] == "123456"[k] && item.id[|item.id| - 1] == "0123456789"[pos % 10] &&
    item.responsibleId in {Some("user-clarissa"), Some("por-elas")}
  }

  lemma TemplateStage1Tagged()
    ensures StageTagged(TemplateStage1(), 0)
  {
    var items := TemplateStage1().items;
    assert ItemTagged(items[0], 0, 1);
    assert ItemTagged(items[1], 0, 2);
    assert ItemTagged(items[2], 0, 3);
    assert ItemTagged(items[3], 0, 4);
    assert ItemTagged(items[4], 0, 5);
    assert ItemTagged(items[5], 0, 6);
  }

  lemma TemplateStage2Tagged()
    ensures StageTagged(TemplateStage2(), 1)
  {
    TemplateStage2Front();
    TemplateStage2Back();
  }

  lemma TemplateStage2Front()
    ensures forall j :: 0 <= j < 5 ==> ItemTagged(TemplateStage2().items[j], 1, j + 1)
  {
    var items := TemplateStage2().items;
    assert ItemTagged(items[0], 1, 1);
    assert ItemTagged(items[1], 1, 2);
    assert ItemTagged(items[2], 1, 3);
    assert ItemTagged(items[3], 1, 4);
    assert ItemTagged(items[4], 1, 5);
  }

  lemma TemplateStage2Back()
    ensures forall j :: 5 <= j < 10 ==> ItemTagged(TemplateStage2().items[j], 1, j + 1)
  {
    var items := TemplateStage2().items;
    assert ItemTagged(items[5], 1, 6);
    assert ItemTagged(items[6], 1, 7);
    assert ItemTagged(items[7], 1, 8);
    assert ItemTagged(items[8], 1, 9);
    assert ItemTagged(items[9], 1, 10);
  }

  lemma TemplateStage3Tagged()
    ensures StageTagged(TemplateStage3(), 2)
  {
    var items := TemplateStage3().items;
    assert ItemTagged(items[0], 2, 1);
    assert ItemTagged(items[1], 2, 2);
    assert ItemTagged(items[2], 2, 3);
    assert ItemTagged(items[3], 2, 4);
    assert ItemTagged(items[4], 2, 5);
  }

  lemma TemplateStage4Tagged()
    ensures StageTagged(TemplateStage4(), 3)
  {
    var items := TemplateStage4().items;
    assert ItemTagged(items[0], 3, 1);
    assert ItemTagged(items[1], 3, 2);
    assert ItemTagged(items[2], 3, 3);
    assert ItemTagged(items[3], 3, 4);
    assert ItemTagged(items[4], 3, 5);
    assert ItemTagged(items[5], 3, 6);
    assert ItemTagged(items[6], 3, 7);
    assert ItemTagged(items[7], 3, 8);
    assert ItemTagged(items[8], 3, 9);
  }

  lemma TemplateStage5Tagged()
    ensures StageTagged(TemplateStage5(), 4)
  {
    TemplateStage5Front();
    TemplateStage5Back();
  }

  lemma TemplateStage5Front()
    ensures forall j :: 0 <= j < 6 ==> ItemTagged(TemplateStage5().items[j], 4, j + 1)
  {
    var items := TemplateStage5().items;
    assert ItemTagged(items[0], 4, 1);
    assert ItemTagged(items[1], 4, 2);
    assert ItemTagged(items[2], 4, 3);
    assert ItemTagged(items[3], 4, 4);
    assert ItemTagged(items[4], 4, 5);
    assert ItemTagged(items[5], 4, 6);
  }

  lemma TemplateStage5Back()
    ensures forall j :: 6 <= j < 12 ==> ItemTagged(TemplateStage5().items[j], 4, j + 1)
  {
    var items := TemplateStage5().items;
    assert ItemTagged(items[6], 4, 7);
    assert ItemTagged(items[7], 4, 8);
    assert ItemTagged(items[8], 4, 9);
    assert ItemTagged(items[9], 4, 10);
    assert ItemTagged(items[10], 4, 11);
    assert ItemTagged(items[11], 4, 12);
  }

  lemma TemplateStage6Tagged()
    ensures StageTagged(TemplateStage6(), 5)
  {
    var items := TemplateStage6().items;
    assert ItemTagged(items[0], 5, 1);
    assert ItemTagged(items[1], 5, 2);
    assert ItemTagged(items[2], 5, 3);
    assert ItemTagged(items[3], 5, 4);
    assert ItemTagged(items[4], 5, 5);
    assert ItemTagged(items[5], 5, 6);
    assert ItemTagged(items[6], 5, 7);
  }

  /** The six template stages, each tagged with its own number. */
  predicate TemplateShaped(stages: seq<Stage>) {
    |stages| == 6 && forall k :: 0 <= k < 6 ==> StageTagged(stages[k], k)
  }

  lemma StagesTemplateTagged()
    ensures TemplateShaped(DetailedStagesTemplate())
  {
    TemplateStage1Tagged();
    TemplateStage2Tagged();
    TemplateStage3Tagged();
    TemplateStage4Tagged();
    TemplateStage5Tagged();
    TemplateStage6Tagged();
  }

  /** Two ids tagged as `StageTagged` describes differ when their stage or their
      position differs. */
  lemma TaggedIdsDiffer(a: string, k1: nat, j1: nat, b: string, k2: nat, j2: nat)
    requires k1 < 6 && k2 < 6 && j1 < 12 && j2 < 12 && (k1, j1) != (k2, j2)
    requires |a| == (if j1 + 1 < 10 then 17 else 18) && a[14] == "123456"[k1] && a[|a| - 1] == "0123456789"[(j1 + 1) % 10]
    requires |b| == (if j2 + 1 < 10 then 17 else 18) && b[14] == "123456"[k2] && b[|b| - 1] == "0123456789"[(j2 + 1) % 10]
    ensures a != b
  {
    if k1 != k2 {
      assert a[14] != b[14];
    } else if |a| == |b| {
      assert a[|a| - 1] != b[|b| - 1];
    }
  }

  /** No two stages share an id. */
  predicate StageIdsDistinct(stages: seq<Stage>) {
    forall k1, k2 :: 0 <= k1 < k2 < |stages| ==> stages[k1].id != stages[k2].id
  }

  /** No two items share an id, whether in the same stage or in different ones. */
  predicate ItemIdsDistinct(stages: seq<Stage>) {
    forall k1, j1, k2, j2 ::
      0 <= k1 < |stages| && 0 <= k2 < |stages| &&
      0 <= j1 < |stages[k1].items| && 0 <= j2 < |stages[k2].items| && (k1, j1) != (k2, j2) ==>
      stages[k1].items[j1].id != stages[k2].items[j2].id
  }

  /** Every item names a responsible, and that id belongs to a member of `team`. */
  predicate StaffedBy(stages: seq<Stage>, team: seq<TeamMember>) {
    forall k, j :: 0 <= k < |stages| && 0 <= j < |stages[k].items| ==>
      var rid := stages[k].items[j].responsibleId;
      rid.Some? && FindMember(team, rid.value).Some?
  }

  /** Stages shaped like the template have distinct stage ids and distinct item ids. */
  lemma TaggedStagesDistinct(stages: seq<Stage>)
    requires TemplateShaped(stages)
    ensures StageIdsDistinct(stages) && ItemIdsDistinct(stages)
  {
    forall k1, k2 | 0 <= k1 < k2 < |stages|
      ensures stages[k1].id != stages[k2].id
    {
      assert stages[k1].id[15] != stages[k2].id[15];
    }
    forall k1, j1, k2, j2 |
      0 <= k1 < |stages| && 0 <= k2 < |stages| &&
      0 <= j1 < |stages[k1].items| && 0 <= j2 < |stages[k2].items| && (k1, j1) != (k2, j2)
      ensures stages[k1].items[j1].id != stages[k2].items[j2].id
    {
      assert ItemTagged(stages[k1].items[j1], k1, j1 + 1);
      assert ItemTagged(stages[k2].items[j2], k2, j2 + 1);
      TaggedIdsDiffer(stages[k1].items[j1].id, k1, j1, stages[k2].items[j2].id, k2, j2);
    }
  }

  /** Stages shaped like the template are staffed by the mock team. */
  lemma TaggedStagesStaffed(stages: seq<Stage>)
    requires TemplateShaped(stages)
    ensures StaffedBy(stages, MockTeamMembers())
  {
    var team := MockTeamMembers();
    TeamHasTemplateResponsibles();
    forall k, j | 0 <= k < |stages| && 0 <= j < |stages[k].items|
      ensures stages[k].items[j].responsibleId.Some?
      ensures FindMember(team, stages[k].items[j].responsibleId.value).Some?
    {
      assert ItemTagged(stages[k].items[j], k, j + 1);
      var rid := stages[k].items[j].responsibleId;
      if rid != Some("user-clarissa") {
        assert rid == Some("por-elas");
      }
    }
  }

  /** The office principal and the outsourced team are both members of the mock team. */
  lemma TeamHasTemplateResponsibles()
    ensures FindMember(MockTeamMembers(), "user-clarissa").Some?
    ensures FindMember(MockTeamMembers(), "por-elas").Some?
  {
    var team := MockTeamMembers();
    assert FindMember(team, "user-clarissa").Some?;
    assert FindMember(team, "por-elas").Some? by {
      assert team[6].id == "por-elas";
    }
  }

  /** The template's stage ids are distinct, and so are its item ids across all stages. */
  lemma StagesTemplateIdsUnique()
    ensures StageIdsDistinct(DetailedStagesTemplate())
    ensures ItemIdsDistinct(DetailedStagesTemplate())
  {
    StagesTemplateTagged();
    TaggedStagesDistinct(DetailedStagesTemplate());
  }

  /** Every template item is staffed by a member of the mock team. */
  lemma StagesTemplateResponsiblesAreTeamMembers()
    ensures StaffedBy(DetailedStagesTemplate(), MockTeamMembers())
  {
    StagesTemplateTagged();
    TaggedStagesStaffed(DetailedStagesTemplate());
  }

  /** Only the first template stage starts expanded. */
  lemma StagesTemplateOnlyFirstExpanded()
    ensures |DetailedStagesTemplate()| == 6
    ensures !DetailedStagesTemplate()[0].isCollapsed
    ensures forall i :: 1 <= i < |DetailedStagesTemplate()| ==> DetailedStagesTemplate()[i].isCollapsed
  {
  }
}
