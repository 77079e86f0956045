/**
 * The benchmark lookup of `get_benchmarks` (backend/app/api/v1/analysis.py):
 * a fixed table of reference figures per platform and account-size tier,
 * filtered by an optional tier, with an optional niche modifier attached.
 * Each tier is represented by its audience band; the reference ranges under
 * it are copied through unchanged.
 */
module Benchmarks {

  import opened Wrappers
  import opened Text

  /** One account-size tier: the audience key ("followers" or "subscribers") and its band. */
  datatype Tier = Tier(audienceKey: string, audience: string)

  /** The `benchmarks` table, by platform and tier. */
  const BenchmarkTable: map<string, map<string, Tier>> := map[
    "instagram" := map[
      "nano" := Tier("followers", "1K-10K"),
      "micro" := Tier("followers", "10K-50K"),
      "mid" := Tier("followers", "50K-500K"),
      "macro" := Tier("followers", "500K-1M"),
      "mega" := Tier("followers", "1M+")],
    "youtube" := map[
      "nano" := Tier("subscribers", "1K-10K"),
      "micro" := Tier("subscribers", "10K-100K"),
      "mid" := Tier("subscribers", "100K-1M"),
      "macro" := Tier("subscribers", "1M+")],
    "tiktok" := map[
      "nano" := Tier("followers", "1K-10K"),
      "micro" := Tier("followers", "10K-100K"),
      "mid" := Tier("followers", "100K-1M"),
      "macro" := Tier("followers", "1M+")]]

  /** One entry of `niche_modifiers`. */
  datatype NicheModifier = NicheModifier(engagementModifier: real, notes: string)

  /** `niche_modifiers` */
  const NicheModifiers: map<string, NicheModifier> := map[
    "moda" := NicheModifier(1.1, "Moda tende a ter engajamento acima da media por apelo visual"),
    "tech" := NicheModifier(0.85, "Conteudo tech tem engajamento menor mas maior conversao"),
    "fitness" := NicheModifier(1.2, "Fitness tem alto engajamento, especialmente em Reels/TikTok"),
    "gastronomia" := NicheModifier(1.15, "Gastronomia performa bem em formatos visuais e curtos"),
    "educacao" := NicheModifier(0.9, "Educacao tem engajamento menor mas alto salvamento e compartilhamento"),
    "negocios" := NicheModifier(0.8, "B2B tem menor engajamento mas leads mais qualificados"),
    "beleza" := NicheModifier(1.15, "Beleza tem alto engajamento com tutoriais e antes/depois"),
    "viagem" := NicheModifier(1.1, "Viagem performa bem com conteudo aspiracional e carrosseis")]

  /** The response of `get_benchmarks`. */
  datatype BenchmarkResponse =
    | Unsupported(error: string)
    | Found(platform: string, tiers: map<string, Tier>, niche: Option<(string, NicheModifier)>)

  /**
   * The niche part of the response: the lower-cased niche with its modifier
   * from the table, or a neutral 1.0 modifier for a niche the table lacks.
   * `niche` is "" when absent.
   */
  function NicheEntry(niche: string): (r: Option<(string, NicheModifier)>)
    ensures niche == "" <==> r.None?
    ensures r.Some? ==> r.value.0 == Lower(niche)
    ensures r.Some? && Lower(niche) in NicheModifiers ==> r.value.1 == NicheModifiers[Lower(niche)]
    ensures r.Some? && Lower(niche) !in NicheModifiers ==> r.value.1.engagementModifier == 1.0
  {
    if niche == "" then None
    else if Lower(niche) in NicheModifiers then Some((Lower(niche), NicheModifiers[Lower(niche)]))
    else Some((Lower(niche), NicheModifier(1.0,
      "Sem dados especificos para o nicho '" + niche + "'. Usando benchmarks gerais.")))
  }

  /**
   * `get_benchmarks(platform, niche, account_size)`: the platform is matched
   * lower-cased; the tier is matched as given, and an absent ("") or unknown
   * tier returns every tier.
   */
  function GetBenchmarks(platform: string, niche: string, accountSize: string): (r: BenchmarkResponse)
    ensures r.Unsupported? <==> Lower(platform) !in BenchmarkTable
    ensures r.Found? ==> r.platform == Lower(platform) && r.niche == NicheEntry(niche)
  {
    var p := Lower(platform);
    if p !in BenchmarkTable then
      Unsupported("Plataforma '" + platform + "' nao suportada. Opcoes: ['instagram', 'youtube', 'tiktok']")
    else
      var table := BenchmarkTable[p];
      var tiers := if accountSize != "" && accountSize in table then map[accountSize := table[accountSize]] else table;
      Found(p, tiers, NicheEntry(niche))
  }

  /** A known tier narrows the benchmarks to that one tier; any other size leaves them all. */
  lemma TierFilter(platform: string, niche: string, accountSize: string)
    requires Lower(platform) in BenchmarkTable
    ensures var table := BenchmarkTable[Lower(platform)];
            var tiers := GetBenchmarks(platform, niche, accountSize).tiers;
            && (accountSize in table ==> tiers.Keys == {accountSize} && tiers[accountSize] == table[accountSize])
            && (accountSize !in table ==> tiers == table)
  {
    var table := BenchmarkTable[Lower(platform)];
    assert "" !in table by {
      assert Lower(platform) in {"instagram", "youtube", "tiktok"};
    }
  }

  /** Every returned tier is a tier of the requested platform, with its own figures. */
  lemma TiersFromTable(platform: string, niche: string, accountSize: string)
    requires Lower(platform) in BenchmarkTable
    ensures var table := BenchmarkTable[Lower(platform)];
            var tiers := GetBenchmarks(platform, niche, accountSize).tiers;
            forall t :: t in tiers ==> t in table && tiers[t] == table[t]
  {
  }

  /** The platform name is case-insensitive. */
  lemma PlatformIgnoresCase(p1: string, p2: string, niche: string, accountSize: string)
    requires Lower(p1) == Lower(p2) && Lower(p1) in BenchmarkTable
    ensures GetBenchmarks(p1, niche, accountSize) == GetBenchmarks(p2, niche, accountSize)
  {
  }

  /** Every attached modifier lies between 0.8 and 1.2. */
  lemma NicheModifierBounds(niche: string)
    requires NicheEntry(niche).Some?
    ensures 0.8 <= NicheEntry(niche).value.1.engagementModifier <= 1.2
  {
    var n := Lower(niche);
    if n in NicheModifiers {
      assert n in {"moda", "tech", "fitness", "gastronomia", "educacao", "negocios", "beleza", "viagem"};
    }
  }
}
