/** The plan table: per-tier limits, the features each tier may use, and the
    landing section it appears in. */
module Plans {

  import opened Types

  /** One entry of `PLAN_LIMITS`. */
  datatype PlanLimits = PlanLimits(
    maxArtworks: nat, maxDailyStatus: nat, maxServices: nat,
    features: seq<string>, landingSection: string, displayName: string)

  /** `PLAN_LIMITS`, one entry per plan. */
  function PlanLimitsTable(plan: PlanType): (limits: PlanLimits)
    // every tier lists some feature, and none twice
    ensures |limits.features| > 0
    ensures forall i, j | 0 <= i < j < |limits.features| :: limits.features[i] != limits.features[j]
    ensures limits.maxServices == limits.maxDailyStatus <= limits.maxArtworks
  {
    match plan
    case Silver => PlanLimits(10, 5, 5, ["basic_profile"], "new_artists", "Artistas Nuevos")
    case Gold => PlanLimits(50, 15, 15, ["flash_sales", "comments"], "relevant_artists", "Artistas Relevantes")
    case Premium =>
      PlanLimits(999, 20, 20, ["flash_sales", "coupons", "reviews", "comments", "monthly_featured"],
                 "top_artists", "Artistas Top")
  }

  /** `getPlanLimits`: the table entry of the plan, unchanged. */
  function GetPlanLimits(plan: PlanType): (limits: PlanLimits)
    ensures limits == PlanLimitsTable(plan)
    // the landing section and the display name tell the plans apart
    ensures forall other: PlanType | other != plan ::
      PlanLimitsTable(other).landingSection != limits.landingSection
      && PlanLimitsTable(other).displayName != limits.displayName
  {
    PlanLimitsTable(plan)
  }

  /** `canUseFeature`: the feature is listed for the plan. */
  function CanUseFeature(plan: PlanType, feature: string): (ok: bool)
    ensures ok <==> feature in GetPlanLimits(plan).features
  {
    Contains(GetPlanLimits(plan).features, feature)
  }

  /** A feature no plan lists is available to no plan. */
  lemma UnknownFeatureIsNeverAvailable(feature: string, plan: PlanType)
    requires feature !in GetPlanLimits(Silver).features
    requires feature !in GetPlanLimits(Gold).features
    requires feature !in GetPlanLimits(Premium).features
    ensures !CanUseFeature(plan, feature)
  {
  }

  /** The numeric limits grow strictly from silver to gold to premium. */
  lemma LimitsIncreaseWithTier()
    ensures GetPlanLimits(Silver).maxArtworks < GetPlanLimits(Gold).maxArtworks < GetPlanLimits(Premium).maxArtworks
    ensures GetPlanLimits(Silver).maxDailyStatus < GetPlanLimits(Gold).maxDailyStatus < GetPlanLimits(Premium).maxDailyStatus
    ensures GetPlanLimits(Silver).maxServices < GetPlanLimits(Gold).maxServices < GetPlanLimits(Premium).maxServices
  {
  }

  /** Whatever gold may use, premium may use too. */
  lemma GoldFeaturesWithinPremium(feature: string)
    ensures CanUseFeature(Gold, feature) ==> CanUseFeature(Premium, feature)
  {
  }

  /** `basic_profile` is listed for silver only. */
  lemma BasicProfileOnlySilver()
    ensures CanUseFeature(Silver, "basic_profile")
    ensures !CanUseFeature(Gold, "basic_profile") && !CanUseFeature(Premium, "basic_profile")
  {
  }
}
