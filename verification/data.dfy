/**
  The project content store and its query helpers (src/lib/data.ts): four bilingual case
  studies, an in-place sort by display position, lookups by id and slug, a status filter,
  and technology de-duplication by name with a category filter on top.
 */
module Data {
  import opened Seqs

  datatype BilingualText = BilingualText(pt: string, en: string)

  datatype Category = Frontend | Backend | Database | Ai | Devops | Other

  datatype Status = Production | Staging | Poc | Maintenance

  /** A technology as a project lists it; `role` is optional in the source. */
  datatype Technology = Technology(name: string, category: Category, role: Option<string>)

  datatype Project = Project(
    id: string,
    slug: string,
    title: BilingualText,
    description: BilingualText,
    status: Status,
    challenge: BilingualText,
    blueprint: BilingualText,
    decisions: BilingualText,
    metrics: BilingualText,
    technologies: seq<Technology>,
    year: Option<int>,
    position: Option<int>)

  /** The string value the source stores for a status. */
  function StatusName(s: Status): string {
    match s
    case Production => "production"
    case Staging => "staging"
    case Poc => "poc"
    case Maintenance => "maintenance"
  }

  /** Reads a status back from its string value; anything else is not a status. */
  function StatusFromName(name: string): (r: Option<Status>)
    ensures r.Some? ==> StatusName(r.value) == name
    ensures r.None? ==> forall st: Status :: StatusName(st) != name
  {
    if name == "production" then Some(Production)
    else if name == "staging" then Some(Staging)
    else if name == "poc" then Some(Poc)
    else if name == "maintenance" then Some(Maintenance)
    else None
  }

  lemma StatusNameRoundTrip(st: Status)
    ensures StatusFromName(StatusName(st)) == Some(st)
  {
  }

  /** The string value the source stores for a category. */
  function CategoryName(c: Category): string {
    match c
    case Frontend => "frontend"
    case Backend => "backend"
    case Database => "database"
    case Ai => "ai"
    case Devops => "devops"
    case Other => "other"
  }

  // ---------------------------------------------------------------------------
  // The shipped store
  // ---------------------------------------------------------------------------

  const JustoAiV1Stack: seq<Technology> := [
    Technology("Python", Backend, Some("Core language")),
    Technology("FastAPI", Backend, Some("REST API framework")),
    Technology("Next.js", Frontend, Some("Frontend framework")),
    Technology("Gemini AI", Ai, Some("Legal document analysis")),
    Technology("PostgreSQL", Database, Some("Data persistence")),
    Technology("Supabase", Database, Some("Managed PostgreSQL"))
  ]

  const JustoAiV1: Project := Project(
    id := "justoai-v1",
    slug := "justoai-v1",
    title := BilingualText(
      "JustoAI (V1)",
      "JustoAI (V1)"),
    description := BilingualText(
      "MVP de validação para automação de análise de documentos jurídicos com IA",
      "MVP validation for legal document analysis automation using AI"),
    status := Maintenance,
    challenge := BilingualText(
      "Validar a automação da análise de documentos jurídicos com IA. O problema era substituir a análise manual demorada por um processo automatizado.",
      "Validate the automation of legal document analysis using AI. The problem was replacing time-consuming manual analysis with an automated process."),
    blueprint := BilingualText(
      "MVP (V1) focado na validação. Stack: Python (FastAPI) para o back-end e Next.js para o front-end.",
      "MVP (V1) focused on validation. Stack: Python (FastAPI) for the backend and Next.js for the frontend."),
    decisions := BilingualText(
      "Escolha do Python/FastAPI pela sua força em prototipagem rápida de IA e integração com bibliotecas de ML.",
      "Chose Python/FastAPI for its strength in rapid AI prototyping and ML library integration."),
    metrics := BilingualText(
      "Validação do MVP concluída, provando a viabilidade da automação.",
      "MVP validation completed, proving the viability of automation."),
    technologies := JustoAiV1Stack,
    year := Some(2023),
    position := Some(1))

  const JustoAiV2Stack: seq<Technology> := [
    Technology("Node.js", Backend, Some("Runtime")),
    Technology("TypeScript", Backend, Some("Type safety")),
    Technology("Next.js", Frontend, Some("Full-stack framework")),
    Technology("React", Frontend, Some("UI library")),
    Technology("Prisma ORM", Backend, Some("Database access layer")),
    Technology("PostgreSQL", Database, Some("Main database")),
    Technology("Supabase", Database, Some("Managed PostgreSQL")),
    Technology("Redis", Database, Some("Caching and queues")),
    Technology("Upstash", Devops, Some("Managed Redis")),
    Technology("BullMQ", Backend, Some("Job queue system")),
    Technology("Bull", Backend, Some("Task scheduling")),
    Technology("Google Gemini", Ai, Some("AI analysis")),
    Technology("Anthropic Claude", Ai, Some("AI analysis")),
    Technology("Clerk", Backend, Some("Authentication")),
    Technology("Sentry", Devops, Some("Error tracking")),
    Technology("JUDIT API", Other, Some("Legal integration")),
    Technology("Stripe", Other, Some("Payments"))
  ]

  const JustoAiV2: Project := Project(
    id := "justoai-v2",
    slug := "justoai-v2",
    title := BilingualText(
      "JustoAI (V2)",
      "JustoAI (V2)"),
    description := BilingualText(
      "Escalabilidade SaaS com otimização I/O e integrações de APIs externas",
      "SaaS scalability with I/O optimization and external API integrations"),
    status := Production,
    challenge := BilingualText(
      "Escalar o produto após a validação do MVP. Era preciso otimizar I/O (operações de entrada/saída) e permitir integrações com APIs externas (como a JUDIT).",
      "Scale the product after MVP validation. Needed to optimize I/O and allow integrations with external APIs (like JUDIT)."),
    blueprint := BilingualText(
      "Evolução da arquitetura (V2) para um sistema escalável. Stack: Node.js (TypeScript) com BullMQ/Redis para gerenciamento de filas e otimização de I/O.",
      "Architecture evolution (V2) for a scalable system. Stack: Node.js (TypeScript) with BullMQ/Redis for queue management and I/O optimization."),
    decisions := BilingualText(
      "Decisão estratégica de migrar de Python para Node.js/TypeScript para melhor performance em operações I/O-bound (comunicação com APIs, uploads) e escalabilidade.",
      "Strategic decision to migrate from Python to Node.js/TypeScript for better performance in I/O-bound operations (API calls, uploads) and scalability."),
    metrics := BilingualText(
      "Arquitetura pronta para escalar, otimização de custos de API de IA e viabilização do modelo de receita SaaS.",
      "Architecture ready to scale, optimization of AI API costs, and enabling the SaaS revenue model."),
    technologies := JustoAiV2Stack,
    year := Some(2024),
    position := Some(2))

  const PokerGrindersEdgeStack: seq<Technology> := [
    Technology("NestJS", Backend, Some("Backend framework")),
    Technology("TypeScript", Backend, Some("Type safety")),
    Technology("Next.js", Frontend, Some("Web framework")),
    Technology("React", Frontend, Some("Web UI")),
    Technology("React Native", Frontend, Some("Mobile app")),
    Technology("PostgreSQL", Database, Some("Data persistence")),
    Technology("Prisma ORM", Backend, Some("Database access")),
    Technology("Strategy Pattern", Backend, Some("Hand parsing")),
    Technology("Math Guards", Backend, Some("Financial integrity")),
    Technology("Tailwind CSS", Frontend, Some("Styling")),
    Technology("Radix UI", Frontend, Some("Component library")),
    Technology("Zustand", Frontend, Some("State management"))
  ]

  const PokerGrindersEdge: Project := Project(
    id := "poker-grinders-edge",
    slug := "poker-grinders-edge",
    title := BilingualText(
      "Poker Grinder's Edge",
      "Poker Grinder's Edge"),
    description := BilingualText(
      "Ecossistema SaaS multi-plataforma com integridade financeira garantida",
      "Multi-platform SaaS ecosystem with guaranteed financial integrity"),
    status := Production,
    challenge := BilingualText(
      "Garantir 100% de integridade financeira e realizar parsing de dados complexos (históricos de mãos de poker).",
      "Ensure 100% financial integrity and parse complex data (poker hand histories)."),
    blueprint := BilingualText(
      "Ecossistema SaaS Multi-plataforma (Web/Mobile). Stack: NestJS (Back-end), React Native (Mobile) e Next.js (Web).",
      "Multi-platform SaaS Ecosystem (Web/Mobile). Stack: NestJS (Backend), React Native (Mobile), and Next.js (Web)."),
    decisions := BilingualText(
      "Implementação do 'Strategy Pattern' para o parsing de dados complexos. Criação de 'Guards Matemáticos' para garantir a integridade financeira.",
      "Implementation of the 'Strategy Pattern' for complex data parsing. Creation of 'Math Guards' to ensure financial integrity."),
    metrics := BilingualText(
      "Sistema com 100% de integridade financeira, focado em robustez e escalabilidade.",
      "System with 100% financial integrity, focused on robustness and scalability."),
    technologies := PokerGrindersEdgeStack,
    year := Some(2024),
    position := Some(3))

  const CerebroJuridicoStack: seq<Technology> := [
    Technology("Python", Backend, Some("Core language")),
    Technology("FastAPI", Backend, Some("API framework")),
    Technology("Streamlit", Frontend, Some("Web UI")),
    Technology("ChromaDB", Database, Some("Vector database")),
    Technology("FAISS", Ai, Some("Vector search")),
    Technology("Google Gemini", Ai, Some("LLM for generation")),
    Technology("Sentence Transformers", Ai, Some("Embeddings")),
    Technology("RAG Pattern", Ai, Some("Architecture pattern")),
    Technology("PDF Processing", Backend, Some("Document parsing")),
    Technology("TF-IDF", Ai, Some("Hybrid search"))
  ]

  const CerebroJuridico: Project := Project(
    id := "cerebro-juridico",
    slug := "cerebro-juridico",
    title := BilingualText(
      "Cérebro Jurídico",
      "Cérebro Jurídico"),
    description := BilingualText(
      "RAG (Retrieval-Augmented Generation) para buscas semânticas em documentos jurídicos",
      "RAG (Retrieval-Augmented Generation) for semantic search in legal documents"),
    status := Poc,
    challenge := BilingualText(
      "Permitir consulta semântica (baseada em significado, não palavra-chave) em grandes bases de documentos jurídicos.",
      "Enable semantic search (based on meaning, not keywords) across large legal document bases."),
    blueprint := BilingualText(
      "Protótipo de RAG (Retrieval-Augmented Generation). Stack: Streamlit (UI), FAISS (Vector DB) e Gemini AI (LLM).",
      "RAG (Retrieval-Augmented Generation) prototype. Stack: Streamlit (UI), FAISS (Vector DB), and Gemini AI (LLM)."),
    decisions := BilingualText(
      "Uso de RAG para aplicar técnicas avançadas de IA, combinando busca vetorial (FAISS) com a capacidade de geração de linguagem (Gemini).",
      "Use of RAG to apply advanced AI techniques, combining vector search (FAISS) with language generation (Gemini)."),
    metrics := BilingualText(
      "Prova de Conceito (PoC) desenvolvida com sucesso, validando a consulta semântica. 11.241 decisões judiciais processadas, 72.335 chunks semânticos.",
      "Proof of Concept (PoC) successfully developed, validating semantic search. 11,241 court decisions processed, 72,335 semantic chunks."),
    technologies := CerebroJuridicoStack,
    year := Some(2024),
    position := Some(4))

  /** The `projects` literal, in the order the source declares it. */
  const ShippedProjects: seq<Project> := [JustoAiV1, JustoAiV2, PokerGrindersEdge, CerebroJuridico]

  // ---------------------------------------------------------------------------
  // Store invariants
  // ---------------------------------------------------------------------------

  ghost predicate UniqueIds(store: seq<Project>) {
    forall i, j :: 0 <= i < j < |store| ==> store[i].id != store[j].id
  }

  ghost predicate UniqueSlugs(store: seq<Project>) {
    forall i, j :: 0 <= i < j < |store| ==> store[i].slug != store[j].slug
  }

  ghost predicate IdsAreSlugs(store: seq<Project>) {
    forall p :: p in store ==> p.id == p.slug
  }

  /** Every project has a position, every position is positive, and no two are equal. */
  ghost predicate UniquePositivePositions(store: seq<Project>) {
    && (forall i :: 0 <= i < |store| ==> store[i].position.Some? && store[i].position.value > 0)
    && (forall i, j :: 0 <= i < j < |store| ==> store[i].position != store[j].position)
  }

  ghost predicate DistinctNames(ts: seq<Technology>) {
    forall i, j :: 0 <= i < j < |ts| ==> ts[i].name != ts[j].name
  }

  ghost predicate NoRepeatedTechnology(store: seq<Project>) {
    forall p :: p in store ==> DistinctNames(p.technologies)
  }

  lemma ShippedIdsAndSlugs()
    ensures UniqueIds(ShippedProjects) && UniqueSlugs(ShippedProjects)
    ensures IdsAreSlugs(ShippedProjects)
  {
  }

  lemma ShippedPositions()
    ensures UniquePositivePositions(ShippedProjects)
  {
  }

  lemma JustoAiV1StackDistinct() ensures DistinctNames(JustoAiV1Stack) {}
  /** Names are distinct when they are distinct on either side of a cut and never repeat across it. */
  lemma DistinctNamesSplit(ts: seq<Technology>, n: nat)
    requires n <= |ts|
    requires DistinctNames(ts[..n]) && DistinctNames(ts[n..])
    requires forall i, j :: 0 <= i < n <= j < |ts| ==> ts[i].name != ts[j].name
    ensures DistinctNames(ts)
  {
    forall i, j | 0 <= i < j < |ts| ensures ts[i].name != ts[j].name {
      if j < n {
        assert ts[i] == ts[..n][i] && ts[j] == ts[..n][j];
      } else if n <= i {
        assert ts[i] == ts[n..][i - n] && ts[j] == ts[n..][j - n];
      }
    }
  }

  // The longest stack is checked in three parts, each a small proof of its own.
  lemma JustoAiV2StackHead() ensures DistinctNames(JustoAiV2Stack[..8]) {}
  lemma JustoAiV2StackTail() ensures DistinctNames(JustoAiV2Stack[8..]) {}
  lemma JustoAiV2StackAcross()
    ensures forall i, j :: 0 <= i < 8 <= j < |JustoAiV2Stack| ==> JustoAiV2Stack[i].name != JustoAiV2Stack[j].name
  {}

  lemma JustoAiV2StackDistinct() ensures DistinctNames(JustoAiV2Stack) {
    JustoAiV2StackHead();
    JustoAiV2StackTail();
    JustoAiV2StackAcross();
    DistinctNamesSplit(JustoAiV2Stack, 8);
  }
  lemma PokerGrindersEdgeStackDistinct() ensures DistinctNames(PokerGrindersEdgeStack) {}
  lemma CerebroJuridicoStackDistinct() ensures DistinctNames(CerebroJuridicoStack) {}

  lemma ShippedTechnologiesNotRepeated()
    ensures NoRepeatedTechnology(ShippedProjects)
  {
    JustoAiV1StackDistinct();
    JustoAiV2StackDistinct();
    PokerGrindersEdgeStackDistinct();
    CerebroJuridicoStackDistinct();
  }

  // ---------------------------------------------------------------------------
  // getAllProjects: in-place sort by position
  // ---------------------------------------------------------------------------

  /** The comparator's key: `position || 0`, so a missing position sorts as 0. */
  function PositionKey(p: Project): int {
    match p.position
    case Some(n) => n
    case None => 0
  }

  ghost predicate SortedByPosition(s: seq<Project>) {
    forall i, j :: 0 <= i < j < |s| ==> PositionKey(s[i]) <= PositionKey(s[j])
  }

  /**
    `getAllProjects`: sorts the shared store array in place by position and returns that
    same array. The sort is an insertion sort, which moves an element only past elements
    with a strictly larger key, so already-ordered input is left untouched.
   */
  method GetAllProjects(projects: array<Project>) returns (sorted: array<Project>)
    modifies projects
    ensures sorted == projects
    ensures SortedByPosition(projects[..])
    ensures multiset(projects[..]) == multiset(old(projects[..]))
    ensures SortedByPosition(old(projects[..])) ==> projects[..] == old(projects[..])
  {
    var i := 0;
    while i < projects.Length
      invariant 0 <= i <= projects.Length
      invariant SortedByPosition(projects[..i])
      invariant multiset(projects[..]) == multiset(old(projects[..]))
      invariant SortedByPosition(old(projects[..])) ==> projects[..] == old(projects[..])
    {
      ghost var before := projects[..];
      assert SortedByPosition(before) ==> SortedByPosition(before[..i + 1]);
      InsertLast(projects, i);
      i := i + 1;
    }
    assert projects[..i] == projects[..];
    sorted := projects;
  }

  /**
    One step of the insertion sort: moves `a[i]` left past every larger key in the sorted
    prefix. The first `i + 1` entries are rearranged among themselves and the rest stay put.
   */
  method InsertLast(a: array<Project>, i: nat)
    requires i < a.Length
    requires SortedByPosition(a[..i])
    modifies a
    ensures SortedByPosition(a[..i + 1])
    ensures multiset(a[..]) == multiset(old(a[..]))
    ensures multiset(a[..i + 1]) == multiset(old(a[..i + 1]))
    ensures forall k :: i < k < a.Length ==> a[k] == old(a[k])
    ensures SortedByPosition(old(a[..i + 1])) ==> a[..] == old(a[..])
  {
    ghost var start := a[..];
    SiftLeft(a, i);
    PrefixPermutation(start, a[..], i + 1);
  }

  /** The loop of `InsertLast`: swaps `a[i]` leftwards while its left neighbour has a larger key. */
  method SiftLeft(a: array<Project>, i: nat)
    requires i < a.Length
    requires SortedByPosition(a[..i])
    modifies a
    ensures SortedByPosition(a[..i + 1])
    ensures multiset(a[..]) == multiset(old(a[..]))
    ensures forall k :: i < k < a.Length ==> a[k] == old(a[k])
    ensures SortedByPosition(old(a[..i + 1])) ==> a[..] == old(a[..])
  {
    var j := i;
    while j > 0 && PositionKey(a[j - 1]) > PositionKey(a[j])
      invariant 0 <= j <= i
      invariant Sifting(a[..], i, j)
      invariant multiset(a[..]) == multiset(old(a[..]))
      invariant forall k {:trigger a[k]} :: i < k < a.Length ==> a[k] == old(a[k])
      invariant j == i ==> a[..] == old(a[..])
      invariant j < i ==> !SortedByPosition(old(a[..i + 1]))
    {
      if j == i {
        assert old(a[..i + 1])[j - 1] == a[j - 1] && old(a[..i + 1])[j] == a[j];
      }
      ghost var pre := a[..];
      Swap(a, j - 1, j);
      SiftStep(pre, i, j);
      j := j - 1;
    }
    SiftDone(a[..], i, j);
  }

  /**
    The state while `a[i]` travels left to index `j`: the prefix up to `i` is ordered apart from
    the travelling entry, and every entry it has passed has a strictly larger key.
   */
  ghost predicate Sifting(s: seq<Project>, i: nat, j: nat) {
    && j <= i < |s|
    && (forall k, l :: 0 <= k < l <= i && k != j && l != j ==> PositionKey(s[k]) <= PositionKey(s[l]))
    && (forall l :: j < l <= i ==> PositionKey(s[j]) < PositionKey(s[l]))
  }

  lemma SiftStep(s: seq<Project>, i: nat, j: nat)
    requires Sifting(s, i, j) && 0 < j && PositionKey(s[j - 1]) > PositionKey(s[j])
    ensures Sifting(s[j - 1 := s[j]][j := s[j - 1]], i, j - 1)
  {
  }

  lemma SiftDone(s: seq<Project>, i: nat, j: nat)
    requires Sifting(s, i, j) && (j == 0 || PositionKey(s[j - 1]) <= PositionKey(s[j]))
    ensures SortedByPosition(s[..i + 1])
  {
  }

  /** Two sequences that are permutations of each other and agree past `n` permute their first `n` entries. */
  lemma PrefixPermutation(s: seq<Project>, t: seq<Project>, n: nat)
    requires n <= |s| == |t|
    requires multiset(s) == multiset(t)
    requires forall k :: n <= k < |s| ==> s[k] == t[k]
    ensures multiset(t[..n]) == multiset(s[..n])
  {
    assert s == s[..n] + s[n..];
    assert t == t[..n] + t[n..];
    assert s[n..] == t[n..];
    var rest := multiset(s[n..]);
    assert multiset(t[..n]) + rest == multiset(s[..n]) + rest;
    assert forall x :: multiset(t[..n])[x] == multiset(s[..n])[x] by {
      forall x ensures multiset(t[..n])[x] == multiset(s[..n])[x] {
        assert (multiset(t[..n]) + rest)[x] == (multiset(s[..n]) + rest)[x];
      }
    }
  }

  method Swap(a: array<Project>, i: nat, j: nat)
    requires i < j < a.Length
    modifies a
    ensures a[..] == old(a[..])[i := old(a[j])][j := old(a[i])]
    ensures a[i] == old(a[j]) && a[j] == old(a[i])
    ensures forall k :: 0 <= k < a.Length && k != i && k != j ==> a[k] == old(a[k])
    ensures multiset(a[..]) == multiset(old(a[..]))
  {
    a[i], a[j] := a[j], a[i];
  }

  lemma ShippedSorted()
    ensures SortedByPosition(ShippedProjects)
  {
  }

  /** On the shipped store, `getAllProjects` returns the projects in their declared order. */
  method SortShipped() returns (r: seq<Project>)
    ensures r == ShippedProjects
  {
    var a := new Project[4](i requires 0 <= i < 4 => ShippedProjects[i]);
    assert a[..] == ShippedProjects;
    ShippedSorted();
    var sorted := GetAllProjects(a);
    r := sorted[..];
  }

  // ---------------------------------------------------------------------------
  // getProjectById, getProjectBySlug
  // ---------------------------------------------------------------------------

  /** `projects.find(p => p.id === id)`: the first project whose id equals `id` exactly. */
  function ProjectById(store: seq<Project>, id: string): (r: Option<Project>)
    ensures r.None? <==> forall p :: p in store ==> p.id != id
    ensures r.Some? ==> exists i :: 0 <= i < |store| && store[i] == r.value && r.value.id == id &&
                                    forall j :: 0 <= j < i ==> store[j].id != id
  {
    Find(store, (p: Project) => p.id == id)
  }

  /** `projects.find(p => p.slug === slug)`: the first project whose slug equals `slug` exactly. */
  function ProjectBySlug(store: seq<Project>, slug: string): (r: Option<Project>)
    ensures r.None? <==> forall p :: p in store ==> p.slug != slug
    ensures r.Some? ==> exists i :: 0 <= i < |store| && store[i] == r.value && r.value.slug == slug &&
                                    forall j :: 0 <= j < i ==> store[j].slug != slug
  {
    Find(store, (p: Project) => p.slug == slug)
  }

  /** Where every id is its project's slug, looking up a key as an id or as a slug gives the same answer. */
  lemma LookupsAgree(store: seq<Project>, key: string)
    requires IdsAreSlugs(store)
    ensures ProjectById(store, key) == ProjectBySlug(store, key)
  {
    var byId, bySlug := ProjectById(store, key), ProjectBySlug(store, key);
    if byId.Some? && bySlug.Some? {
      var i :| 0 <= i < |store| && store[i] == byId.value && byId.value.id == key &&
               forall j :: 0 <= j < i ==> store[j].id != key;
      var k :| 0 <= k < |store| && store[k] == bySlug.value && bySlug.value.slug == key &&
               forall j :: 0 <= j < k ==> store[j].slug != key;
      assert store[i] in store && store[k] in store;
    }
  }

  lemma ShippedLookupsAgree(key: string)
    ensures ProjectById(ShippedProjects, key) == ProjectBySlug(ShippedProjects, key)
  {
    ShippedIdsAndSlugs();
    LookupsAgree(ShippedProjects, key);
  }

  // ---------------------------------------------------------------------------
  // getProjectsByStatus
  // ---------------------------------------------------------------------------

  /** The filter test `p.status === status`, comparing the stored string. */
  function HasStatus(status: string): Project -> bool {
    (p: Project) => StatusName(p.status) == status
  }

  /**
    `projects.filter(p => p.status === status)`. The argument is a string, as at run time:
    every project with that status, as often as the store holds it, and nothing else.
   */
  function ProjectsByStatus(store: seq<Project>, status: string): (r: seq<Project>)
    ensures forall p :: p in r <==> p in store && StatusName(p.status) == status
    ensures forall p :: multiset(r)[p] == if StatusName(p.status) == status then multiset(store)[p] else 0
  {
    FilterContents(store, HasStatus(status));
    Filter(store, HasStatus(status))
  }

  /** The result keeps store order: filtering a concatenation concatenates the results. */
  lemma ProjectsByStatusKeepsOrder(a: seq<Project>, b: seq<Project>, status: string)
    ensures ProjectsByStatus(a + b, status) == ProjectsByStatus(a, status) + ProjectsByStatus(b, status)
  {
    FilterAppend(a, b, HasStatus(status));
  }

  /** A string that names no status selects nothing. */
  lemma UnknownStatusSelectsNothing(store: seq<Project>, status: string)
    requires StatusFromName(status).None?
    ensures ProjectsByStatus(store, status) == []
  {
  }

  /** The four status filters split the store: every project lands in exactly one of them. */
  lemma {:induction false} StatusFiltersPartition(store: seq<Project>)
    ensures |ProjectsByStatus(store, "production")| + |ProjectsByStatus(store, "staging")|
          + |ProjectsByStatus(store, "poc")| + |ProjectsByStatus(store, "maintenance")| == |store|
  {
    if store != [] {
      StatusFiltersPartition(store[1..]);
      ProjectsByStatusUnfold(store, "production");
      ProjectsByStatusUnfold(store, "staging");
      ProjectsByStatusUnfold(store, "poc");
      ProjectsByStatusUnfold(store, "maintenance");
      var tail := |ProjectsByStatus(store[1..], "production")| + |ProjectsByStatus(store[1..], "staging")|
                + |ProjectsByStatus(store[1..], "poc")| + |ProjectsByStatus(store[1..], "maintenance")|;
      assert tail == |store| - 1;
      match store[0].status
      case Production =>
        assert StatusName(store[0].status) == "production";
        assert "production" != "staging" && "production" != "poc" && "production" != "maintenance";
      case Staging =>
        assert StatusName(store[0].status) == "staging";
        assert "staging" != "production" && "staging" != "poc" && "staging" != "maintenance";
      case Poc =>
        assert StatusName(store[0].status) == "poc";
        assert "poc" != "production" && "poc" != "staging" && "poc" != "maintenance";
      case Maintenance =>
        assert StatusName(store[0].status) == "maintenance";
        assert "maintenance" != "production" && "maintenance" != "staging" && "maintenance" != "poc";
    }
  }

  lemma ProjectsByStatusUnfold(store: seq<Project>, status: string)
    requires store != []
    ensures |ProjectsByStatus(store, status)| ==
            (if StatusName(store[0].status) == status then 1 else 0) + |ProjectsByStatus(store[1..], status)|
  {
  }

  // ---------------------------------------------------------------------------
  // getAllTechnologies, getTechnologiesByCategory
  // ---------------------------------------------------------------------------

  /** Every technology of every project, project by project, each list in its own order. */
  function AllTechnologyEntries(store: seq<Project>): seq<Technology> {
    if store == [] then [] else store[0].technologies + AllTechnologyEntries(store[1..])
  }

  function Names(ts: seq<Technology>): set<string> {
    set t | t in ts :: t.name
  }

  /**
    De-duplication by name as the source's `Map` performs it: walking `ts` in order, a
    technology is kept when its name is not a key yet (`seen`), and its name becomes one.
   */
  function FirstByName(ts: seq<Technology>, seen: set<string>): seq<Technology> {
    if ts == [] then []
    else if ts[0].name in seen then FirstByName(ts[1..], seen)
    else [ts[0]] + FirstByName(ts[1..], seen + {ts[0].name})
  }

  lemma NamesAppend(a: seq<Technology>, b: seq<Technology>)
    ensures Names(a + b) == Names(a) + Names(b)
  {
    forall n | n in Names(a + b) ensures n in Names(a) + Names(b) {
      var t :| t in a + b && t.name == n;
    }
    forall n | n in Names(a) + Names(b) ensures n in Names(a + b) {
      if n in Names(a) {
        var t :| t in a && t.name == n;
        assert t in a + b;
      } else {
        var t :| t in b && t.name == n;
        assert t in a + b;
      }
    }
  }

  /** The kept technologies have pairwise-distinct names, none of them already seen, and all come from `ts`. */
  lemma {:induction false} FirstByNameDistinct(ts: seq<Technology>, seen: set<string>)
    ensures DistinctNames(FirstByName(ts, seen))
    ensures forall t :: t in FirstByName(ts, seen) ==> t in ts && t.name !in seen
  {
    if ts != [] {
      if ts[0].name in seen {
        FirstByNameDistinct(ts[1..], seen);
      } else {
        FirstByNameDistinct(ts[1..], seen + {ts[0].name});
        var rest := FirstByName(ts[1..], seen + {ts[0].name});
        assert forall k :: 0 <= k < |rest| ==> rest[k] in rest;
      }
    }
  }

  /** Every name in `ts` that was not seen before is the name of a kept technology, and no other. */
  lemma {:induction false} FirstByNameCovers(ts: seq<Technology>, seen: set<string>)
    ensures Names(FirstByName(ts, seen)) == Names(ts) - seen
  {
    if ts != [] {
      NamesAppend([ts[0]], ts[1..]);
      assert [ts[0]] + ts[1..] == ts;
      assert Names([ts[0]]) == {ts[0].name};
      if ts[0].name in seen {
        FirstByNameCovers(ts[1..], seen);
      } else {
        FirstByNameCovers(ts[1..], seen + {ts[0].name});
        NamesAppend([ts[0]], FirstByName(ts[1..], seen + {ts[0].name}));
      }
    }
  }

  /** Each kept technology is the first one in `ts` that carries its name. */
  lemma {:induction false} FirstByNameFirstWins(ts: seq<Technology>, seen: set<string>, k: nat)
    requires k < |FirstByName(ts, seen)|
    ensures exists i :: 0 <= i < |ts| && ts[i] == FirstByName(ts, seen)[k] &&
                        forall j :: 0 <= j < i ==> ts[j].name != ts[i].name
  {
    var r := FirstByName(ts, seen);
    if ts[0].name in seen {
      FirstByNameFirstWins(ts[1..], seen, k);
      FirstByNameDistinct(ts[1..], seen);
      assert r[k] in FirstByName(ts[1..], seen);
      var i :| 0 <= i < |ts[1..]| && ts[1..][i] == r[k] &&
               forall j :: 0 <= j < i ==> ts[1..][j].name != ts[1..][i].name;
      assert ts[i + 1] == r[k];
      forall j | 0 <= j < i + 1 ensures ts[j].name != ts[i + 1].name {
        if j > 0 { assert ts[j] == ts[1..][j - 1]; }
      }
    } else if k == 0 {
      assert ts[0] == r[0];
    } else {
      var seen' := seen + {ts[0].name};
      FirstByNameFirstWins(ts[1..], seen', k - 1);
      FirstByNameDistinct(ts[1..], seen');
      assert r[k] == FirstByName(ts[1..], seen')[k - 1];
      assert r[k] in FirstByName(ts[1..], seen');
      var i :| 0 <= i < |ts[1..]| && ts[1..][i] == r[k] &&
               forall j :: 0 <= j < i ==> ts[1..][j].name != ts[1..][i].name;
      assert ts[i + 1] == r[k];
      forall j | 0 <= j < i + 1 ensures ts[j].name != ts[i + 1].name {
        if j > 0 { assert ts[j] == ts[1..][j - 1]; }
      }
    }
  }

  /** Kept technologies come out in order of first appearance: de-duplicating a concatenation
      de-duplicates the first part, then the second part against every name of the first. */
  lemma {:induction false} FirstByNameAppend(a: seq<Technology>, b: seq<Technology>, seen: set<string>)
    ensures FirstByName(a + b, seen) == FirstByName(a, seen) + FirstByName(b, seen + Names(a))
  {
    if a == [] {
      assert a + b == b;
      assert Names(a) == {};
      assert seen + Names(a) == seen;
    } else {
      assert (a + b)[0] == a[0];
      assert (a + b)[1..] == a[1..] + b;
      NamesAppend([a[0]], a[1..]);
      assert [a[0]] + a[1..] == a;
      assert Names([a[0]]) == {a[0].name};
      if a[0].name in seen {
        FirstByNameAppend(a[1..], b, seen);
        assert seen + Names(a[1..]) == seen + Names(a);
      } else {
        FirstByNameAppend(a[1..], b, seen + {a[0].name});
        assert seen + {a[0].name} + Names(a[1..]) == seen + Names(a);
      }
    }
  }

  lemma NamesSnoc(ts: seq<Technology>, t: Technology)
    ensures Names(ts + [t]) == Names(ts) + {t.name}
  {
    NamesAppend(ts, [t]);
    assert Names([t]) == {t.name};
  }

  /**
    `getAllTechnologies`: walks every project's technologies and records a technology under
    its name unless the name is already a key; the result is the recorded values in
    insertion order. The map is held as its key set `seen` and its values in order `r`.
   */
  method GetAllTechnologies(projects: seq<Project>) returns (r: seq<Technology>)
    ensures r == FirstByName(AllTechnologyEntries(projects), {})
    ensures DistinctNames(r)
    ensures Names(r) == Names(AllTechnologyEntries(projects))
    ensures forall p, t :: p in projects && t in p.technologies ==> t.name in Names(r)
  {
    var seen: set<string> := {};
    r := [];
    var p := 0;
    while p < |projects|
      invariant 0 <= p <= |projects|
      invariant seen == Names(r)
      invariant r + FirstByName(AllTechnologyEntries(projects[p..]), seen) ==
                FirstByName(AllTechnologyEntries(projects), {})
    {
      AllTechnologyEntriesUnfold(projects, p);
      seen, r := RecordNew(projects[p].technologies, AllTechnologyEntries(projects[p + 1..]), seen, r);
      p := p + 1;
    }
    assert projects[p..] == [];
    FirstByNameDistinct(AllTechnologyEntries(projects), {});
    FirstByNameCovers(AllTechnologyEntries(projects), {});
    assert Names(AllTechnologyEntries(projects)) - {} == Names(AllTechnologyEntries(projects));
    forall p, t | p in projects && t in p.technologies ensures t.name in Names(r) {
      AllTechnologyEntriesHas(projects, p, t);
      assert t.name in Names(AllTechnologyEntries(projects));
    }
  }

  /** Every technology of every project is among the walked entries. */
  lemma {:induction false} AllTechnologyEntriesHas(store: seq<Project>, p: Project, t: Technology)
    requires p in store && t in p.technologies
    ensures t in AllTechnologyEntries(store)
  {
    if store[0] != p {
      AllTechnologyEntriesHas(store[1..], p, t);
    }
  }

  /**
    The inner `project.technologies.forEach`: records each technology whose name is not yet a
    key. Whatever entries `later` follow, the values recorded so far plus the de-duplication
    of `later` against the new keys equal the de-duplication of `techs + later` against the old keys.
   */
  method RecordNew(techs: seq<Technology>, ghost later: seq<Technology>, seen0: set<string>, r0: seq<Technology>)
    returns (seen: set<string>, r: seq<Technology>)
    requires seen0 == Names(r0)
    ensures seen == Names(r)
    ensures r + FirstByName(later, seen) == r0 + FirstByName(techs + later, seen0)
  {
    seen, r := seen0, r0;
    assert techs[0..] == techs;
    var t := 0;
    while t < |techs|
      invariant 0 <= t <= |techs|
      invariant seen == Names(r)
      invariant r + FirstByName(techs[t..] + later, seen) == r0 + FirstByName(techs + later, seen0)
    {
      assert techs[t..] + later == [techs[t]] + (techs[t + 1..] + later);
      FirstByNameStep(r, techs[t], techs[t + 1..] + later, seen);
      if techs[t].name !in seen {
        seen := seen + {techs[t].name};
        r := r + [techs[t]];
      }
      t := t + 1;
    }
    assert techs[t..] + later == later;
  }

  lemma AllTechnologyEntriesUnfold(projects: seq<Project>, p: nat)
    requires p < |projects|
    ensures AllTechnologyEntries(projects[p..]) == projects[p].technologies + AllTechnologyEntries(projects[p + 1..])
  {
    assert projects[p..][1..] == projects[p + 1..];
  }

  /** One step of the walk: a technology whose name is new is appended and its name recorded. */
  lemma FirstByNameStep(r: seq<Technology>, t: Technology, rest: seq<Technology>, seen: set<string>)
    requires seen == Names(r)
    ensures t.name in seen ==> r + FirstByName([t] + rest, seen) == r + FirstByName(rest, seen)
    ensures t.name !in seen ==>
      && r + FirstByName([t] + rest, seen) == (r + [t]) + FirstByName(rest, seen + {t.name})
      && Names(r + [t]) == seen + {t.name}
  {
    assert ([t] + rest)[0] == t && ([t] + rest)[1..] == rest;
    NamesSnoc(r, t);
  }

  /** Keeping a subset of a list in order keeps its names distinct. */
  lemma {:induction false} FilterKeepsNamesDistinct(ts: seq<Technology>, pred: Technology -> bool)
    requires DistinctNames(ts)
    ensures DistinctNames(Filter(ts, pred))
  {
    if ts != [] {
      FilterKeepsNamesDistinct(ts[1..], pred);
      var rest := Filter(ts[1..], pred);
      FilterContents(ts[1..], pred);
      forall k | 0 <= k < |rest| ensures rest[k].name != ts[0].name {
        assert rest[k] in rest;
        var i :| 0 <= i < |ts[1..]| && ts[1..][i] == rest[k];
        assert ts[i + 1] == rest[k];
      }
    }
  }

  /** The filter test `tech.category === category`, comparing the stored string. */
  function InCategory(category: string): Technology -> bool {
    (t: Technology) => CategoryName(t.category) == category
  }

  /**
    `getTechnologiesByCategory`: the de-duplicated list filtered on the category string, in
    the same order; its names are therefore distinct too.
   */
  method TechnologiesByCategory(projects: seq<Project>, category: string) returns (r: seq<Technology>)
    ensures r == Filter(FirstByName(AllTechnologyEntries(projects), {}), InCategory(category))
    ensures DistinctNames(r)
    ensures forall t :: t in r <==> t in FirstByName(AllTechnologyEntries(projects), {}) &&
                                    CategoryName(t.category) == category
  {
    var all := GetAllTechnologies(projects);
    r := Filter(all, InCategory(category));
    FilterContents(all, InCategory(category));
    FilterKeepsNamesDistinct(all, InCategory(category));
  }
}
