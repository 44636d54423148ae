/** `validate_input` of the Azure ML workspace script: the three required
    settings are checked in order, and a missing region is filled in by the
    region recommender, which the model takes as a parameter. */
module WorkspaceInput {
  import opened Wrappers

  /** Python truthiness of an optional string: `None` and `""` are false. */
  predicate Given(v: Option<string>) {
    v.Some? && |v.value| > 0
  }

  /** `validate_input(subscription_id, resource_group, workspace_name,
      workspace_region)`, with `recommend` standing for
      `AzureRegionRecommender.recommend_region`. */
  function ValidateInput(subscriptionId: Option<string>, resourceGroup: Option<string>,
                         workspaceName: Option<string>, workspaceRegion: Option<string>,
                         recommend: string -> string): (r: Result<string>)
    ensures r.Ok? <==> Given(subscriptionId) && Given(resourceGroup) && Given(workspaceName)
    ensures r.Raised? ==> r.error.ValueError?
  {
    if !Given(subscriptionId) then Raised(ValueError("Subscription ID is required"))
    else if !Given(resourceGroup) then Raised(ValueError("Resource Group is required"))
    else if !Given(workspaceName) then Raised(ValueError("Workspace Name is required"))
    else if !Given(workspaceRegion) then Ok(recommend(subscriptionId.value))
    else Ok(workspaceRegion.value)
  }

  /** The subscription id is checked before anything else. */
  lemma SubscriptionCheckedFirst(resourceGroup: Option<string>, workspaceName: Option<string>,
                                 workspaceRegion: Option<string>, recommend: string -> string,
                                 subscriptionId: Option<string>)
    requires !Given(subscriptionId)
    ensures ValidateInput(subscriptionId, resourceGroup, workspaceName, workspaceRegion, recommend)
         == Raised(ValueError("Subscription ID is required"))
  {
  }

  /** With a subscription id, a missing resource group is reported next,
      whatever the workspace name. */
  lemma ResourceGroupCheckedSecond(subscriptionId: Option<string>, resourceGroup: Option<string>,
                                   workspaceName: Option<string>, workspaceRegion: Option<string>,
                                   recommend: string -> string)
    requires Given(subscriptionId) && !Given(resourceGroup)
    ensures ValidateInput(subscriptionId, resourceGroup, workspaceName, workspaceRegion, recommend)
         == Raised(ValueError("Resource Group is required"))
  {
  }

  /** With both before it, a missing workspace name is reported, whatever
      the region. */
  lemma WorkspaceNameCheckedThird(subscriptionId: Option<string>, resourceGroup: Option<string>,
                                  workspaceName: Option<string>, workspaceRegion: Option<string>,
                                  recommend: string -> string)
    requires Given(subscriptionId) && Given(resourceGroup) && !Given(workspaceName)
    ensures ValidateInput(subscriptionId, resourceGroup, workspaceName, workspaceRegion, recommend)
         == Raised(ValueError("Workspace Name is required"))
  {
  }

  /** On success the region is the one given, or else the recommender's
      answer for the subscription; only then is the recommender consulted. */
  lemma RegionChoice(subscriptionId: string, resourceGroup: string, workspaceName: string,
                     workspaceRegion: Option<string>, recommend: string -> string)
    requires |subscriptionId| > 0 && |resourceGroup| > 0 && |workspaceName| > 0
    ensures var r := ValidateInput(Some(subscriptionId), Some(resourceGroup), Some(workspaceName),
                                   workspaceRegion, recommend);
      r.Ok? && r.value == (if Given(workspaceRegion) then workspaceRegion.value else recommend(subscriptionId))
  {
  }

  /** A given region does not depend on the recommender at all. */
  lemma GivenRegionIgnoresRecommender(subscriptionId: Option<string>, resourceGroup: Option<string>,
                                      workspaceName: Option<string>, region: string,
                                      recommend1: string -> string, recommend2: string -> string)
    requires |region| > 0
    ensures ValidateInput(subscriptionId, resourceGroup, workspaceName, Some(region), recommend1)
         == ValidateInput(subscriptionId, resourceGroup, workspaceName, Some(region), recommend2)
  {
  }
}
