/** The system roles, their levels and the permission matrix. */
module Permissions {

  datatype Permission =
    | AgentRead | AgentWrite | AgentDelete | PlaygroundUse | SecretRead | SecretWrite
    | ChannelRead | ChannelWrite | SkillInstanceRead | SkillInstanceWrite | ToolRead | ToolWrite
    | PromptRead | PromptWrite | RoomRead | RoomWrite | TaskRead | TaskWrite
    | KnowledgeRead | KnowledgeWrite | GovernanceRead | GovernanceWrite | ExportRead
    | ConversationRead | ConversationDelete | MemoryRead | MemoryWrite | AnalyticsRead
    | SkillCatalogRead | SkillCatalogWrite | OrgRead | OrgWrite | MemberManage | AuditLogRead

  datatype SystemRole = Owner | Admin | Member | Viewer

  function RoleLevel(role: SystemRole): nat {
    match role
    case Owner => 40
    case Admin => 30
    case Member => 20
    case Viewer => 10
  }

  const VIEWER_PERMISSIONS: set<Permission> :=
    {AgentRead, PlaygroundUse, ChannelRead, SkillInstanceRead, ToolRead, PromptRead, RoomRead, TaskRead,
     KnowledgeRead, GovernanceRead, ConversationRead, MemoryRead, AnalyticsRead, SkillCatalogRead, OrgRead}

  const MEMBER_PERMISSIONS: set<Permission> := VIEWER_PERMISSIONS +
    {AgentWrite, ChannelWrite, SkillInstanceWrite, ToolWrite, PromptWrite, RoomWrite, TaskWrite,
     KnowledgeWrite, MemoryWrite, SecretRead, SecretWrite, ExportRead}

  const ADMIN_PERMISSIONS: set<Permission> := MEMBER_PERMISSIONS +
    {AgentDelete, GovernanceWrite, ConversationDelete, SkillCatalogWrite, MemberManage, AuditLogRead}

  const OWNER_PERMISSIONS: set<Permission> := ADMIN_PERMISSIONS + {OrgWrite}

  function RolePermissions(role: SystemRole): set<Permission> {
    match role
    case Owner => OWNER_PERMISSIONS
    case Admin => ADMIN_PERMISSIONS
    case Member => MEMBER_PERMISSIONS
    case Viewer => VIEWER_PERMISSIONS
  }

  /** The level order is exactly the order of the permission sets. */
  lemma {:induction false} LevelsOrderPermissions(a: SystemRole, b: SystemRole)
    ensures RoleLevel(a) <= RoleLevel(b) <==> RolePermissions(a) <= RolePermissions(b)
  {
    assert AgentWrite !in VIEWER_PERMISSIONS;
    assert AgentDelete !in MEMBER_PERMISSIONS;
    assert OrgWrite !in ADMIN_PERMISSIONS;
  }
}
