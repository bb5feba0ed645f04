/** The public widget configuration (app/api/chat/config/route.ts): the display settings of one
    chatbot, with branding forced on and the assistant forced off unless the owner's plan allows
    them. The owner's id is never part of the answer. */
module WidgetConfig {
  import opened Text
  import opened ChatData
  import opened Plans

  /** The fields the endpoint returns; there is no owner id among them. */
  datatype PublicConfig = PublicConfig(
    widgetTitle: Option<string>, welcomeMessage: Option<string>, primaryColor: Option<string>,
    position: Option<string>, avatarUrl: Option<string>, showBranding: Option<bool>,
    placeholderText: Option<string>, offlineMessage: Option<string>, aiEnabled: Option<bool>,
    launcherText: Option<string>, launcherTextEnabled: Option<bool>,
    businessHoursEnabled: Option<bool>, businessHours: Option<Schedule>,
    businessHoursTimezone: Option<string>, outsideHoursMessage: Option<string>)

  datatype ConfigReply = ConfigMissingId | ConfigNotFound | ConfigFound(config: PublicConfig)

  /** `adminProfile?.plan || 'starter'`. */
  function OwnerPlan(profiles: map<Id, Profile>, adminId: Id): (r: string)
    ensures adminId !in profiles ==> r == "starter"
    ensures adminId in profiles && profiles[adminId].plan != "" ==> r == profiles[adminId].plan
  {
    if adminId in profiles && profiles[adminId].plan != "" then profiles[adminId].plan else "starter"
  }

  /** The projection of a stored configuration under the owner's limits. */
  function Project(c: ChatbotConfig, limits: PlanLimits): PublicConfig {
    PublicConfig(
      c.widgetTitle, c.welcomeMessage, c.primaryColor, c.position, c.avatarUrl,
      if limits.removeBranding then c.showBranding else Some(true),
      c.placeholderText, c.offlineMessage,
      if limits.aiEnabled then c.aiEnabled else Some(false),
      c.launcherText, c.launcherTextEnabled, c.businessHoursEnabled, c.businessHours,
      c.businessHoursTimezone, c.outsideHoursMessage)
  }

  /** GET /api/chat/config. */
  function GetConfig(configs: map<Id, ChatbotConfig>, profiles: map<Id, Profile>, chatbotId: Option<Id>): (r: ConfigReply)
    ensures r.ConfigMissingId? <==> chatbotId.None?
    ensures r.ConfigNotFound? <==> chatbotId.Some? && chatbotId.value !in configs
  {
    match chatbotId
    case None => ConfigMissingId
    case Some(id) =>
      if id !in configs then ConfigNotFound
      else ConfigFound(Project(configs[id], GetPlanLimits(OwnerPlan(profiles, configs[id].adminId))))
  }

  /** Branding and the assistant follow the stored values exactly when the owner's plan allows
      them; every other field is copied unchanged. */
  lemma GetConfigGates(configs: map<Id, ChatbotConfig>, profiles: map<Id, Profile>, id: Id)
    requires id in configs
    ensures var c := configs[id];
      var limits := GetPlanLimits(OwnerPlan(profiles, c.adminId));
      var r := GetConfig(configs, profiles, Some(id));
      && r.ConfigFound?
      && (limits.removeBranding ==> r.config.showBranding == c.showBranding)
      && (!limits.removeBranding ==> r.config.showBranding == Some(true))
      && (limits.aiEnabled ==> r.config.aiEnabled == c.aiEnabled)
      && (!limits.aiEnabled ==> r.config.aiEnabled == Some(false))
      && r.config.(showBranding := c.showBranding, aiEnabled := c.aiEnabled) == Project(c, Limits(Business))
  {
  }

  /** An owner with no profile, an empty plan or the starter plan gets branding on and the
      assistant off, whatever the configuration stores. */
  lemma StarterOwnerGated(configs: map<Id, ChatbotConfig>, profiles: map<Id, Profile>, id: Id)
    requires id in configs
    requires var a := configs[id].adminId; a !in profiles || profiles[a].plan in {"", "starter"}
    ensures GetConfig(configs, profiles, Some(id)).config.showBranding == Some(true)
    ensures GetConfig(configs, profiles, Some(id)).config.aiEnabled == Some(false)
  {
  }

  /** The owner's id does not leak: two stored configurations that differ only in their owner,
      whose owners hold the same plan, give the same answer. */
  lemma OwnerIdNotReturned(configs: map<Id, ChatbotConfig>, profiles: map<Id, Profile>, id: Id, other: Id)
    requires id in configs
    requires OwnerPlan(profiles, other) == OwnerPlan(profiles, configs[id].adminId)
    ensures GetConfig(configs[id := configs[id].(adminId := other)], profiles, Some(id))
            == GetConfig(configs, profiles, Some(id))
  {
  }
}
