/**
 * The leader catalog: the six domains with their colours, the 24 leaders of
 * the Origins and Spiritforged sets, and the lookups and search over them.
 */
module Leaders {
  import opened Wrappers
  import opened Sequences
  import opened Text

  /** `DomainCode`: r Fury, g Calm, b Mind, o Body, y Order, p Chaos. */
  datatype DomainCode = R | G | B | O | Y | P

  datatype Domain = Domain(code: DomainCode, name: string, color: string)

  /** `DOMAINS`: each code's name and hex colour. */
  const DOMAINS: map<DomainCode, Domain> := map[
    R := Domain(R, "Fury", "#dc2626"),
    G := Domain(G, "Calm", "#22c55e"),
    B := Domain(B, "Mind", "#3b82f6"),
    O := Domain(O, "Body", "#f97316"),
    Y := Domain(Y, "Order", "#eab308"),
    P := Domain(P, "Chaos", "#a855f7")]

  /** Every code has an entry, filed under its own code; names and colours differ between codes. */
  lemma DomainsAreKeyed()
    ensures forall c :: c in DOMAINS && DOMAINS[c].code == c
    ensures forall c, d | c != d :: DOMAINS[c].color != DOMAINS[d].color && DOMAINS[c].name != DOMAINS[d].name
  {
    forall c ensures c in DOMAINS && DOMAINS[c].code == c {
      match c
      case R => case G => case B => case O => case Y => case P =>
    }
  }

  /** `Leader`: the two domains are a pair in a fixed order. */
  datatype Leader = Leader(id: string, name: string, displayName: string,
                           domains: (DomainCode, DomainCode), imageUrl: string)

  /** `LEADERS`. */
  const LEADERS: seq<Leader> := [
    Leader("ahri", "ahri", "Ahri", (G, B), "/leaders/ahri-gb.png"),
    Leader("darius", "darius", "Darius", (R, Y), "/leaders/darius-ry.png"),
    Leader("jinx", "jinx", "Jinx", (R, P), "/leaders/jinx-rp.png"),
    Leader("kaisa", "kaisa", "Kai'Sa", (R, B), "/leaders/kaisa-rb.png"),
    Leader("leesin", "leesin", "Lee Sin", (G, O), "/leaders/leesin-go.png"),
    Leader("leona", "leona", "Leona", (G, Y), "/leaders/leona-gy.png"),
    Leader("missfortune", "missfortune", "Miss Fortune", (O, P), "/leaders/missfortune-op.png"),
    Leader("sett", "sett", "Sett", (O, Y), "/leaders/sett-oy.png"),
    Leader("teemo", "teemo", "Teemo", (B, P), "/leaders/teemo-bp.png"),
    Leader("viktor", "viktor", "Viktor", (B, Y), "/leaders/viktor-by.png"),
    Leader("volibear", "volibear", "Volibear", (R, O), "/leaders/volibear-ro.png"),
    Leader("yasuo", "yasuo", "Yasuo", (G, P), "/leaders/yasuo-gp.png"),
    Leader("azir", "azir", "Azir", (G, Y), "/leaders/azir-gy.png"),
    Leader("draven", "draven", "Draven", (R, P), "/leaders/draven-rp.png"),
    Leader("ezreal", "ezreal", "Ezreal", (B, P), "/leaders/ezreal-bp.png"),
    Leader("fiora", "fiora", "Fiora", (O, Y), "/leaders/fiora-oy.png"),
    Leader("irelia", "irelia", "Irelia", (G, P), "/leaders/irelia-gp.png"),
    Leader("jax", "jax", "Jax", (G, O), "/leaders/jax-go.png"),
    Leader("lucian", "lucian", "Lucian", (R, O), "/leaders/lucian-ro.png"),
    Leader("ornn", "ornn", "Ornn", (G, B), "/leaders/ornn-gb.png"),
    Leader("reksai", "reksai", "Rek'Sai", (R, Y), "/leaders/reksai-ry.png"),
    Leader("renata", "renata", "Renata Glasc", (B, Y), "/leaders/renata-by.png"),
    Leader("rumble", "rumble", "Rumble", (R, B), "/leaders/rumble-rb.png"),
    Leader("sivir", "sivir", "Sivir", (O, P), "/leaders/sivir-op.png")]

  /** Each leader is named by its id, and no two leaders share an id. */
  predicate Keyed(catalog: seq<Leader>) {
    && (forall i | 0 <= i < |catalog| :: catalog[i].name == catalog[i].id)
    && (forall i, j | 0 <= i < j < |catalog| :: catalog[i].id != catalog[j].id)
  }

  /** The catalog holds 24 leaders with pairwise distinct ids, each named by its id. */
  lemma CatalogIsKeyed()
    ensures |LEADERS| == 24
    ensures forall i | 0 <= i < |LEADERS| :: LEADERS[i].name == LEADERS[i].id
    ensures forall i, j | 0 <= i < j < |LEADERS| :: LEADERS[i].id != LEADERS[j].id
  {
  }

  /** Some leader of `catalog` has the given id. */
  predicate HasId(catalog: seq<Leader>, id: string) {
    exists i :: 0 <= i < |catalog| && catalog[i].id == id
  }

  /** The first leader of `catalog` with the given id. */
  function FindById(catalog: seq<Leader>, id: string): (r: Option<Leader>)
    ensures r.Some? <==> HasId(catalog, id)
    ensures r.Some? ==> r.value.id == id && r.value in catalog
  {
    Find(catalog, (leader: Leader) => leader.id == id)
  }

  /** `getLeaderById`. */
  function GetLeaderById(id: string): (r: Option<Leader>)
    ensures r.Some? <==> HasId(LEADERS, id)
    ensures r.Some? ==> r.value.id == id && r.value in LEADERS
  {
    FindById(LEADERS, id)
  }

  /** In a keyed catalog, looking up a leader's id finds that very leader. */
  lemma FindByIdFindsEach(catalog: seq<Leader>, i: int)
    requires Keyed(catalog) && 0 <= i < |catalog|
    ensures FindById(catalog, catalog[i].id) == Some(catalog[i])
  {
    var r := FindById(catalog, catalog[i].id);
    assert HasId(catalog, catalog[i].id);
    var j :| 0 <= j < |catalog| && catalog[j] == r.value;
    assert i == j;
  }

  /** Looking up a catalog leader's id finds that very leader. */
  lemma GetLeaderByIdFindsEach(i: int)
    requires 0 <= i < |LEADERS|
    ensures GetLeaderById(LEADERS[i].id) == Some(LEADERS[i])
  {
    CatalogIsKeyed();
    assert Keyed(LEADERS);
    FindByIdFindsEach(LEADERS, i);
  }

  /** The characters the name lookup deletes: apostrophes, white space and hyphens. */
  predicate IsNameMark(c: char) {
    c == '\'' || IsSpace(c) || c == '-'
  }

  /** `name.toLowerCase().replace(/['\s-]/g, '')`. */
  function NormalizeName(name: string): (r: string)
    ensures forall k | 0 <= k < |r| :: !IsNameMark(r[k]) && !('A' <= r[k] <= 'Z')
    ensures |r| <= |name|
  {
    LowerIsIdempotent(name);
    FilterMembers(Lower(name), (c: char) => !IsNameMark(c));
    Filter(Lower(name), (c: char) => !IsNameMark(c))
  }

  /** Normalising a normalised name changes nothing. */
  lemma NormalizeNameIsIdempotent(name: string)
    ensures NormalizeName(NormalizeName(name)) == NormalizeName(name)
  {
    var n := NormalizeName(name);
    assert Lower(n) == n;
    FilterAll(n, (c: char) => !IsNameMark(c));
  }

  /** Normalising works character by character: it distributes over concatenation. */
  lemma NormalizeNameAppend(a: string, b: string)
    ensures NormalizeName(a + b) == NormalizeName(a) + NormalizeName(b)
  {
    LowerAppend(a, b);
    FilterAppend(Lower(a), Lower(b), (c: char) => !IsNameMark(c));
  }

  /** A mark normalises to nothing; any other character to its lower-case form. */
  lemma NormalizeNameChar(c: char)
    ensures NormalizeName([c]) == if IsNameMark(c) then [] else [LowerChar(c)]
  {
    assert Lower([c]) == [LowerChar(c)];
    assert IsNameMark(LowerChar(c)) == IsNameMark(c);
    assert [LowerChar(c)][..0] == [];
  }

  /** The test `getLeaderByName` matches with: the leader's `name` or `id` is the key. */
  predicate Answers(leader: Leader, key: string) {
    leader.name == key || leader.id == key
  }

  /** Some leader of `catalog` answers to the key. */
  predicate Answerable(catalog: seq<Leader>, key: string) {
    exists i :: 0 <= i < |catalog| && Answers(catalog[i], key)
  }

  /** The first leader of `catalog` that answers to the key. */
  function FindByKey(catalog: seq<Leader>, key: string): (r: Option<Leader>)
    ensures r.Some? <==> Answerable(catalog, key)
    ensures r.Some? ==> r.value in catalog && Answers(r.value, key)
  {
    Find(catalog, (leader: Leader) => Answers(leader, key))
  }

  /** `getLeaderByName`: normalise, then match the leader's `name` or `id`. */
  function GetLeaderByName(name: string): (r: Option<Leader>)
    ensures r.Some? <==> Answerable(LEADERS, NormalizeName(name))
    ensures r.Some? ==> r.value in LEADERS && Answers(r.value, NormalizeName(name))
  {
    FindByKey(LEADERS, NormalizeName(name))
  }

  /** In a keyed catalog, a leader's id as key finds that very leader. */
  lemma FindByKeyFindsEach(catalog: seq<Leader>, i: int)
    requires Keyed(catalog) && 0 <= i < |catalog|
    ensures FindByKey(catalog, catalog[i].id) == Some(catalog[i])
  {
    var r := FindByKey(catalog, catalog[i].id);
    assert Answers(catalog[i], catalog[i].id);
    var j :| 0 <= j < |catalog| && catalog[j] == r.value;
    assert i == j;
  }

  /** A name that normalises to a catalog id finds that very leader. */
  lemma GetLeaderByNameFindsEach(name: string, key: string, i: int)
    requires 0 <= i < |LEADERS| && LEADERS[i].id == key && NormalizeName(name) == key
    ensures GetLeaderByName(name) == Some(LEADERS[i])
  {
    CatalogIsKeyed();
    assert Keyed(LEADERS);
    FindByKeyFindsEach(LEADERS, i);
  }

  /** `getLeaderColors`: the colours of the first and the second domain. */
  function GetLeaderColors(leader: Leader): (colors: (string, string))
    ensures colors.0 == colors.1 <==> leader.domains.0 == leader.domains.1
  {
    DomainsAreKeyed();
    (DOMAINS[leader.domains.0].color, DOMAINS[leader.domains.1].color)
  }

  /** `getLeaderDomainNames`: the names of the first and the second domain. */
  function GetLeaderDomainNames(leader: Leader): (names: (string, string))
    ensures names.0 == names.1 <==> leader.domains.0 == leader.domains.1
  {
    DomainsAreKeyed();
    (DOMAINS[leader.domains.0].name, DOMAINS[leader.domains.1].name)
  }

  /**
   * The colour pair and the name pair each identify a leader's domains in
   * order, and so identify each other.
   */
  lemma ColorsAndNamesDetermineDomains(a: Leader, b: Leader)
    ensures GetLeaderColors(a) == GetLeaderColors(b) <==> a.domains == b.domains
    ensures GetLeaderDomainNames(a) == GetLeaderDomainNames(b) <==> a.domains == b.domains
  {
    DomainsAreKeyed();
  }

  /** The test `searchLeaders` keeps a leader by: its lower-cased display name or its name contains the lower-cased query. */
  predicate MatchesQuery(leader: Leader, query: string) {
    Includes(Lower(leader.displayName), Lower(query)) || Includes(leader.name, Lower(query))
  }

  /**
   * The leaders of `r` come from strictly increasing positions of `catalog`:
   * in catalog order, and (the catalog's entries being distinct) no leader twice.
   */
  predicate InCatalogOrder(r: seq<Leader>, catalog: seq<Leader>) {
    forall k, l | 0 <= k < l < |r| ::
      exists i, j :: 0 <= i < j < |catalog| && r[k] == catalog[i] && r[l] == catalog[j]
  }

  /** The leaders of `catalog` that match the query, in catalog order. */
  function SearchIn(catalog: seq<Leader>, query: string): (r: seq<Leader>)
    ensures forall k | 0 <= k < |r| :: r[k] in catalog && MatchesQuery(r[k], query)
    ensures forall i | 0 <= i < |catalog| && MatchesQuery(catalog[i], query) :: catalog[i] in r
    ensures InCatalogOrder(r, catalog)
  {
    var matches := (leader: Leader) => MatchesQuery(leader, query);
    FilterMembers(catalog, matches);
    FilterKeepsOrder(catalog, matches);
    assert InCatalogOrder(Filter(catalog, matches), catalog);
    Filter(catalog, matches)
  }

  /** `searchLeaders`. */
  function SearchLeaders(query: string): (r: seq<Leader>)
    ensures forall k | 0 <= k < |r| :: r[k] in LEADERS && MatchesQuery(r[k], query)
    ensures forall i | 0 <= i < |LEADERS| && MatchesQuery(LEADERS[i], query) :: LEADERS[i] in r
    ensures InCatalogOrder(r, LEADERS)
  {
    SearchIn(LEADERS, query)
  }

  /** The empty query returns the whole catalog, in catalog order. */
  lemma SearchEmptyIsCatalog()
    ensures SearchLeaders("") == LEADERS
  {
    forall i | 0 <= i < |LEADERS| ensures MatchesQuery(LEADERS[i], "") {
      IncludesEmpty(Lower(LEADERS[i].displayName));
    }
    FilterAll(LEADERS, (leader: Leader) => MatchesQuery(leader, ""));
  }

  /** Search ignores the case of the query. */
  lemma SearchIgnoresCase(query: string)
    ensures SearchLeaders(Lower(query)) == SearchLeaders(query)
  {
    LowerIsIdempotent(query);
    FilterSameTest(LEADERS, (leader: Leader) => MatchesQuery(leader, Lower(query)),
                   (leader: Leader) => MatchesQuery(leader, query));
  }

  lemma NormalizeKaiSa()
    ensures NormalizeName("Kai'Sa") == "kaisa"
  {
    var r := Lower("Kai'Sa");
    assert LowerChar('K') == 'k' && LowerChar('S') == 's';
    assert r[0] == 'k' && r[1] == 'a' && r[2] == 'i' && r[3] == '\'' && r[4] == 's' && r[5] == 'a';
    assert r == "kai" + ['\''] + "sa";
    FilterDropsOne("kai", '\'', "sa", (c: char) => !IsNameMark(c));
  }

  lemma NormalizeLeeSin()
    ensures NormalizeName("Lee Sin") == "leesin"
  {
    var r := Lower("Lee Sin");
    assert LowerChar('L') == 'l' && LowerChar('S') == 's';
    assert r[0] == 'l' && r[1] == 'e' && r[2] == 'e' && r[3] == ' ' && r[4] == 's' && r[5] == 'i' && r[6] == 'n';
    assert r == "lee" + [' '] + "sin";
    FilterDropsOne("lee", ' ', "sin", (c: char) => !IsNameMark(c));
  }

  /** Any name that normalises to "kaisa" finds kaisa. */
  lemma KaiSaKey(name: string)
    requires NormalizeName(name) == "kaisa"
    ensures GetLeaderByName(name) == Some(LEADERS[3])
  {
    GetLeaderByNameFindsEach(name, "kaisa", 3);
  }

  /** Any name that normalises to "leesin" finds leesin. */
  lemma LeeSinKey(name: string)
    requires NormalizeName(name) == "leesin"
    ensures GetLeaderByName(name) == Some(LEADERS[4])
  {
    GetLeaderByNameFindsEach(name, "leesin", 4);
  }

  /** `"Kai'Sa"` finds kaisa and `"Lee Sin"` finds leesin. */
  lemma NameLookupExamples()
    ensures GetLeaderByName("Kai'Sa") == Some(LEADERS[3])
    ensures GetLeaderByName("Lee Sin") == Some(LEADERS[4])
  {
    NormalizeKaiSa();
    KaiSaKey("Kai'Sa");
    NormalizeLeeSin();
    LeeSinKey("Lee Sin");
  }
}
