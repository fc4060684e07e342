/**
 * The `translations` constant of frontend/src/lib/utils/i18n.js as the object graph
 * JavaScript builds from it. Every object literal is a node; `Property(node, k)` is
 * `node[k]` for an own property `k` (None when it is undefined).
 *
 * Where the literal defines a key more than once, the last definition is the one the
 * object holds, and that is the value given here (for example English `tasks` is
 * 'Tasks', the definition at line 235, and English `cancel` is 'Cancel').
 */
module TranslationTable {
  import opened Wrappers

  /** The two languages the table has. */
  datatype Lang = En | Zh

  /** One object literal of the table: a language's table, or one of its two nested tables. */
  datatype Node = Root(lang: Lang) | Greeting(lang: Lang) | FocusBar(lang: Lang)

  /** A value reached in the table: a string, or an object. */
  datatype Value = Text(s: string) | Object(node: Node)

  /** `translations[lang]`: the table of a language, or undefined. */
  function LanguageTable(lang: string): (r: Option<Value>)
    ensures r.Some? <==> lang == "en" || lang == "zh"
    ensures r.Some? ==> r.value.Object? && r.value.node.Root?
    ensures lang == "en" ==> r == Some(Object(Root(En)))
    ensures lang == "zh" ==> r == Some(Object(Root(Zh)))
  {
    match lang
    case "en" => Some(Object(Root(En)))
    case "zh" => Some(Object(Root(Zh)))
    case _ => None
  }

  /** `node[k]` for the objects of the table. */
  function Property(node: Node, k: string): Option<Value> {
    match node
    case Root(En) => EnglishProperty(k)
    case Root(Zh) => ChineseProperty(k)
    case Greeting(En) => EnglishGreeting(k)
    case Greeting(Zh) => ChineseGreeting(k)
    case FocusBar(En) => EnglishFocusBar(k)
    case FocusBar(Zh) => ChineseFocusBar(k)
  }

  /** The own properties of `translations.en`. */
  function EnglishProperty(k: string): Option<Value> {
    match k
    case "login" => Some(Text("Log in"))
    case "loginToAccount" => Some(Text("Log in to your account"))
    case "email" => Some(Text("Email"))
    case "password" => Some(Text("Password"))
    case "enterEmail" => Some(Text("Enter your email"))
    case "enterPassword" => Some(Text("Enter your password"))
    case "signingIn" => Some(Text("Signing in..."))
    case "signIn" => Some(Text("Sign in"))
    case "dontHaveAccount" => Some(Text("Don't have an account?"))
    case "signUpForFree" => Some(Text("Sign up for free"))
    case "privacyPolicy" => Some(Text("Privacy Policy"))
    case "termsOfService" => Some(Text("Terms of Service"))
    case "newChat" => Some(Text("New Chat"))
    case "search" => Some(Text("Search"))
    case "settings" => Some(Text("Settings"))
    case "delete" => Some(Text("delete"))
    case "cancel" => Some(Text("Cancel"))
    case "collapseSidebar" => Some(Text("Collapse sidebar"))
    case "expandSidebar" => Some(Text("Expand sidebar"))
    case "sendMessage" => Some(Text("Send a message"))
    case "copyCode" => Some(Text("Copy Code"))
    case "copied" => Some(Text("Copied!"))
    case "copySuccess" => Some(Text("Copying to clipboard was successful!"))
    case "advanced" => Some(Text("Advanced"))
    case "models" => Some(Text("Models"))
    case "chatManagement" => Some(Text("Chat Management"))
    case "parameters" => Some(Text("Parameters"))
    case "requestMode" => Some(Text("Request Mode"))
    case "default" => Some(Text("Default"))
    case "json" => Some(Text("JSON"))
    case "save" => Some(Text("Save"))
    case "modelsConfiguration" => Some(Text("Models Configuration"))
    case "modelsDescription" => Some(Text("Configure multiple models with different URLs and API keys (all following OpenAI interface specification)"))
    case "edit" => Some(Text("Edit"))
    case "deleteModel" => Some(Text("Delete"))
    case "editModel" => Some(Text("Edit Model"))
    case "settingsSaved" => Some(Text("Settings saved successfully"))
    case "atLeastOneModel" => Some(Text("At least one model is required"))
    case "modelDeleted" => Some(Text("Model deleted successfully"))
    case "modelUpdated" => Some(Text("Model updated successfully"))
    case "addModel" => Some(Text("Add Model"))
    case "confirmDelete" => Some(Text("Confirm Delete"))
    case "confirmDeleteMessage" => Some(Text("Are you sure you want to delete this model? This action cannot be undone."))
    case "setAsDefault" => Some(Text("Set as default model"))
    case "chatManagementDescription" => Some(Text("Import, export, and manage your chat conversations"))
    case "importConversations" => Some(Text("Import"))
    case "exportConversations" => Some(Text("Export"))
    case "clearConversations" => Some(Text("Clear conversations"))
    case "importSuccess" => Some(Text("Conversations imported successfully"))
    case "exportSuccess" => Some(Text("Conversations exported successfully"))
    case "clearSuccess" => Some(Text("Conversations cleared successfully"))
    case "clearConfirm" => Some(Text("Are you sure you want to clear all conversations? This action cannot be undone."))
    case "importFailed" => Some(Text("Failed to import conversations"))
    case "greeting" => Some(Object(Greeting(En)))
    case "dashboard" => Some(Text("Dashboard"))
    case "dashboardDescription" => Some(Text("Here's what's happening with your CRM today. Stay on top of your pipeline and close more deals."))
    case "errorLoading" => Some(Text("Error loading dashboard"))
    case "salesPipeline" => Some(Text("Sales Pipeline"))
    case "pipelineValue" => Some(Text("Pipeline Value"))
    case "weightedPipeline" => Some(Text("Weighted Pipeline"))
    case "wonThisMonth" => Some(Text("Won This Month"))
    case "conversionRate" => Some(Text("Conversion Rate"))
    case "focusBar" => Some(Object(FocusBar(En)))
    case "hotLeads" => Some(Text("Hot Leads"))
    case "opportunities" => Some(Text("Opportunities"))
    case "tasks" => Some(Text("Tasks"))
    case "activityFeed" => Some(Text("Activity Feed"))
    case "leads" => Some(Text("Leads"))
    case "contacts" => Some(Text("Contacts"))
    case "accounts" => Some(Text("Accounts"))
    case "deals" => Some(Text("Deals"))
    case "tickets" => Some(Text("Tickets"))
    case "tasksMenu" => Some(Text("Tasks"))
    case "sales" => Some(Text("Sales"))
    case "invoices" => Some(Text("Invoices"))
    case "support" => Some(Text("Support"))
    case "helpDesk" => Some(Text("Help Desk"))
    case "aiGroup" => Some(Text("AI"))
    case "crmGroup" => Some(Text("CRM"))
    case "salesGroup" => Some(Text("Sales"))
    case "supportGroup" => Some(Text("Support"))
    case "agent" => Some(Text("Agent"))
    case "comingSoon" => Some(Text("Coming Soon"))
    case "all" => Some(Text("All"))
    case "open" => Some(Text("Open"))
    case "lost" => Some(Text("Lost"))
    case "filters" => Some(Text("Filters"))
    case "columns" => Some(Text("Columns"))
    case "toggleColumns" => Some(Text("Toggle columns"))
    case "newLead" => Some(Text("New Lead"))
    case "searchLeads" => Some(Text("Search leads..."))
    case "source" => Some(Text("Source"))
    case "rating" => Some(Text("Rating"))
    case "created" => Some(Text("Created"))
    case "noLeadsFound" => Some(Text("No leads found"))
    case "createNewLead" => Some(Text("Create a new lead to get started"))
    case "newContact" => Some(Text("New Contact"))
    case "searchContacts" => Some(Text("Search contacts..."))
    case "noContactsFound" => Some(Text("No contacts found"))
    case "createNewContact" => Some(Text("Create a new contact to get started"))
    case "contact" => Some(Text("Contact"))
    case "details" => Some(Text("Details"))
    case "owner" => Some(Text("Owner"))
    case "unassigned" => Some(Text("Unassigned"))
    case "creating" => Some(Text("Creating..."))
    case "createContact" => Some(Text("Create Contact"))
    case "saving" => Some(Text("Saving..."))
    case "account" => Some(Text("Account"))
    case "newAccount" => Some(Text("New Account"))
    case "searchAccounts" => Some(Text("Search accounts..."))
    case "noAccountsFound" => Some(Text("No accounts found"))
    case "tryAdjustingFilters" => Some(Text("Try adjusting your filters or create a new account"))
    case "active" => Some(Text("Active"))
    case "closed" => Some(Text("Closed"))
    case "industry" => Some(Text("Industry"))
    case "allIndustries" => Some(Text("All Industries"))
    case "revenue" => Some(Text("Revenue"))
    case "website" => Some(Text("Website"))
    case "accountName" => Some(Text("Account name"))
    case "related" => Some(Text("Related"))
    case "cases" => Some(Text("Cases"))
    case "quickActions" => Some(Text("Quick Actions"))
    case "addContact" => Some(Text("Add Contact"))
    case "addOpportunity" => Some(Text("Add Opportunity"))
    case "addCase" => Some(Text("Add Case"))
    case "addTask" => Some(Text("Add Task"))
    case "thisAccountIsClosed" => Some(Text("This account is closed"))
    case "reopenAccountToMakeChanges" => Some(Text("Reopen the account to make changes"))
    case "reopenAccount" => Some(Text("Reopen Account"))
    case "closeAccount" => Some(Text("Close Account"))
    case "creatingAccount" => Some(Text("Creating..."))
    case "createAccount" => Some(Text("Create Account"))
    case "opportunity" => Some(Text("Opportunity"))
    case "opportunityName" => Some(Text("Opportunity name"))
    case "searchOpportunities" => Some(Text("Search opportunities..."))
    case "noOpportunitiesFound" => Some(Text("No opportunities found"))
    case "pipeline" => Some(Text("Pipeline"))
    case "won" => Some(Text("Won"))
    case "closeDate" => Some(Text("Close Date"))
    case "closedBy" => Some(Text("Closed By"))
    case "closedOn" => Some(Text("Closed On"))
    case "notAssigned" => Some(Text("Not assigned"))
    case "system" => Some(Text("System"))
    case "products" => Some(Text("products"))
    case "noProductsAddedYet" => Some(Text("No products added yet"))
    case "addProduct" => Some(Text("Add Product"))
    case "selectProduct" => Some(Text("Select product..."))
    case "total" => Some(Text("Total"))
    case "markWon" => Some(Text("Mark Won"))
    case "markLost" => Some(Text("Mark Lost"))
    case "createOpportunity" => Some(Text("Create Opportunity"))
    case "thisWillCreateANewInvoice" => Some(Text("This will create a new invoice from this opportunity with"))
    case "product" => Some(Text("product"))
    case "totaling" => Some(Text("totaling"))
    case "createInvoice" => Some(Text("Create Invoice"))
    case "new" => Some(Text("New"))
    case "case" => Some(Text("Case"))
    case "caseTitle" => Some(Text("Case title"))
    case "newCase" => Some(Text("New Case"))
    case "searchCases" => Some(Text("Search cases..."))
    case "noCasesFound" => Some(Text("No cases found"))
    case "priority" => Some(Text("Priority"))
    case "type" => Some(Text("Type"))
    case "list" => Some(Text("List"))
    case "board" => Some(Text("Board"))
    case "closeCase" => Some(Text("Close Case"))
    case "reopen" => Some(Text("Reopen"))
    case "saveChanges" => Some(Text("Save Changes"))
    case "calendar" => Some(Text("Calendar"))
    case "newTask" => Some(Text("New Task"))
    case "searchTasks" => Some(Text("Search tasks..."))
    case "noTasksFound" => Some(Text("No tasks found"))
    case "dueDate" => Some(Text("Due Date"))
    case "newInvoice" => Some(Text("New Invoice"))
    case "searchInvoices" => Some(Text("Search invoices..."))
    case "noInvoicesYet" => Some(Text("No invoices yet"))
    case "createFirstInvoice" => Some(Text("Create your first invoice to get started"))
    case "status" => Some(Text("Status"))
    case "issueDate" => Some(Text("Issue Date"))
    case "openSourceForeverFree" => Some(Text("AI • Open Source •  Free"))
    case "help" => Some(Text("Help"))
    case "ourMission" => Some(Text("Our Mission"))
    case "missionDescription" => Some(Text("OpenCRM addresses the high subscription costs of commercial CRM alternatives by providing a completely free, open-source, and highly customizable solution. Clone it, self-host it, and make it yours — forever free."))
    case "community" => Some(Text("Community"))
    case "joinTheCommunity" => Some(Text("Join the Community"))
    case "communityDescription" => Some(Text("Collaborate with developers worldwide. Get free support, share ideas, and help shape the future of open-source CRM."))
    case "openSource" => Some(Text("Open Source"))
    case "activeCommunity" => Some(Text("Active Community"))
    case "visitGitHub" => Some(Text("Visit GitHub"))
    case "professionalSupport" => Some(Text("Professional Support"))
    case "professionalSupportDescription" => Some(Text("Priority support, hosting assistance, and custom development services from the core team."))
    case "contactTeam" => Some(Text("Contact Team"))
    case "featureRequests" => Some(Text("Feature Requests"))
    case "featureRequestsDescription" => Some(Text("Have an idea? Share your requests and help shape the future of BottleCRM."))
    case "requestFeature" => Some(Text("Request Feature"))
    case "bugReports" => Some(Text("Bug Reports"))
    case "bugReportsDescription" => Some(Text("Found an issue? Your feedback helps make the platform more stable for everyone."))
    case "reportBug" => Some(Text("Report Bug"))
    case "critical" => Some(Text("Critical"))
    case "securityIssues" => Some(Text("Security Issues"))
    case "securityIsOurPriority" => Some(Text("Security is our priority."))
    case "reportVulnerabilitiesPrivately" => Some(Text("Report vulnerabilities privately."))
    case "neverCreatePublicIssuesForSecurityConcerns" => Some(Text("Never create public issues for security concerns."))
    case "reportPrivately" => Some(Text("Report Privately"))
    case "needCustomCrmDevelopment" => Some(Text("Need Custom CRM Development?"))
    case "customDevelopmentDescription" => Some(Text("Tailored solutions including hosting, custom features, integrations, and ongoing support for your specific business needs."))
    case "getCustomQuote" => Some(Text("Get Custom Quote"))
    case _ => None
  }

  /** The own properties of `translations.en.greeting`. */
  function EnglishGreeting(k: string): Option<Value> {
    match k
    case "morning" => Some(Text("Good morning"))
    case "afternoon" => Some(Text("Good afternoon"))
    case "evening" => Some(Text("Good evening"))
    case _ => None
  }

  /** The own properties of `translations.en.focusBar`. */
  function EnglishFocusBar(k: string): Option<Value> {
    match k
    case "overdueTasks" => Some(Text("Overdue Tasks"))
    case "tasksDueToday" => Some(Text("Tasks Due Today"))
    case "followupsToday" => Some(Text("Follow-ups Today"))
    case "hotLeads" => Some(Text("Hot Leads"))
    case _ => None
  }

  /** The own properties of `translations.zh`. */
  function ChineseProperty(k: string): Option<Value> {
    match k
    case "login" => Some(Text("登录"))
    case "loginToAccount" => Some(Text("登录您的账户"))
    case "email" => Some(Text("邮箱"))
    case "password" => Some(Text("密码"))
    case "enterEmail" => Some(Text("输入您的邮箱"))
    case "enterPassword" => Some(Text("输入您的密码"))
    case "signingIn" => Some(Text("登录中..."))
    case "signIn" => Some(Text("登录"))
    case "dontHaveAccount" => Some(Text("还没有账户？"))
    case "signUpForFree" => Some(Text("免费注册"))
    case "privacyPolicy" => Some(Text("隐私政策"))
    case "termsOfService" => Some(Text("服务条款"))
    case "newChat" => Some(Text("新建对话"))
    case "search" => Some(Text("搜索"))
    case "settings" => Some(Text("设置"))
    case "delete" => Some(Text("删除"))
    case "cancel" => Some(Text("取消"))
    case "collapseSidebar" => Some(Text("收起侧边栏"))
    case "expandSidebar" => Some(Text("展开侧边栏"))
    case "sendMessage" => Some(Text("发送消息"))
    case "copyCode" => Some(Text("复制代码"))
    case "copied" => Some(Text("已复制!"))
    case "copySuccess" => Some(Text("复制到剪贴板成功!"))
    case "advanced" => Some(Text("高级设置"))
    case "models" => Some(Text("模型"))
    case "chatManagement" => Some(Text("会话管理"))
    case "parameters" => Some(Text("参数"))
    case "requestMode" => Some(Text("请求模式"))
    case "default" => Some(Text("默认"))
    case "json" => Some(Text("JSON"))
    case "save" => Some(Text("保存"))
    case "modelsConfiguration" => Some(Text("模型配置"))
    case "modelsDescription" => Some(Text("配置多个不同URL和API密钥的模型（均遵循OpenAI接口规范）"))
    case "edit" => Some(Text("编辑"))
    case "deleteModel" => Some(Text("删除"))
    case "editModel" => Some(Text("编辑模型"))
    case "settingsSaved" => Some(Text("设置保存成功"))
    case "atLeastOneModel" => Some(Text("至少需要一个模型"))
    case "modelDeleted" => Some(Text("模型删除成功"))
    case "modelUpdated" => Some(Text("模型更新成功"))
    case "addModel" => Some(Text("添加模型"))
    case "confirmDelete" => Some(Text("确认删除"))
    case "confirmDeleteMessage" => Some(Text("您确定要删除此模型吗？此操作无法撤销。"))
    case "setAsDefault" => Some(Text("设为默认模型"))
    case "chatManagementDescription" => Some(Text("导入、导出和管理您的聊天对话"))
    case "importConversations" => Some(Text("导入"))
    case "exportConversations" => Some(Text("导出"))
    case "clearConversations" => Some(Text("清空对话"))
    case "importSuccess" => Some(Text("对话导入成功"))
    case "exportSuccess" => Some(Text("对话导出成功"))
    case "clearSuccess" => Some(Text("对话清空成功"))
    case "clearConfirm" => Some(Text("您确定要清空所有对话吗？此操作无法撤销。"))
    case "importFailed" => Some(Text("对话导入失败"))
    case "greeting" => Some(Object(Greeting(Zh)))
    case "dashboard" => Some(Text("仪表盘"))
    case "dashboardDescription" => Some(Text("这是您的 CRM 今天的情况。掌握您的销售管道并完成更多交易。"))
    case "errorLoading" => Some(Text("加载仪表盘失败"))
    case "salesPipeline" => Some(Text("销售管道"))
    case "pipelineValue" => Some(Text("管道价值"))
    case "weightedPipeline" => Some(Text("加权管道"))
    case "wonThisMonth" => Some(Text("本月已赢"))
    case "conversionRate" => Some(Text("转化率"))
    case "focusBar" => Some(Object(FocusBar(Zh)))
    case "hotLeads" => Some(Text("热门线索"))
    case "opportunities" => Some(Text("商机"))
    case "tasks" => Some(Text("任务"))
    case "activityFeed" => Some(Text("活动动态"))
    case "leads" => Some(Text("线索"))
    case "contacts" => Some(Text("联系人"))
    case "accounts" => Some(Text("客户"))
    case "deals" => Some(Text("交易"))
    case "tickets" => Some(Text("工单"))
    case "tasksMenu" => Some(Text("任务"))
    case "sales" => Some(Text("销售"))
    case "invoices" => Some(Text("发票"))
    case "support" => Some(Text("支持"))
    case "helpDesk" => Some(Text("帮助中心"))
    case "aiGroup" => Some(Text("AI"))
    case "crmGroup" => Some(Text("客户关系管理"))
    case "salesGroup" => Some(Text("销售"))
    case "supportGroup" => Some(Text("支持"))
    case "agent" => Some(Text("智能体"))
    case "comingSoon" => Some(Text("敬请期待"))
    case "all" => Some(Text("全部"))
    case "open" => Some(Text("进行中"))
    case "lost" => Some(Text("输单"))
    case "filters" => Some(Text("筛选"))
    case "columns" => Some(Text("列"))
    case "toggleColumns" => Some(Text("切换列"))
    case "newLead" => Some(Text("新建线索"))
    case "searchLeads" => Some(Text("搜索线索..."))
    case "source" => Some(Text("来源"))
    case "rating" => Some(Text("评级"))
    case "created" => Some(Text("创建时间"))
    case "noLeadsFound" => Some(Text("未找到线索"))
    case "createNewLead" => Some(Text("创建一个新线索开始"))
    case "newContact" => Some(Text("新建联系人"))
    case "searchContacts" => Some(Text("搜索联系人..."))
    case "noContactsFound" => Some(Text("未找到联系人"))
    case "createNewContact" => Some(Text("创建一个新联系人开始"))
    case "contact" => Some(Text("联系人"))
    case "details" => Some(Text("详情"))
    case "owner" => Some(Text("负责人"))
    case "unassigned" => Some(Text("未分配"))
    case "creating" => Some(Text("创建中..."))
    case "createContact" => Some(Text("创建联系人"))
    case "saving" => Some(Text("保存中..."))
    case "account" => Some(Text("客户"))
    case "newAccount" => Some(Text("新建客户"))
    case "searchAccounts" => Some(Text("搜索客户..."))
    case "noAccountsFound" => Some(Text("未找到客户"))
    case "tryAdjustingFilters" => Some(Text("尝试调整筛选条件或创建新客户"))
    case "active" => Some(Text("进行中"))
    case "closed" => Some(Text("已关闭"))
    case "industry" => Some(Text("行业"))
    case "allIndustries" => Some(Text("所有行业"))
    case "revenue" => Some(Text("收入"))
    case "website" => Some(Text("网站"))
    case "accountName" => Some(Text("客户名称"))
    case "related" => Some(Text("相关"))
    case "cases" => Some(Text("工单"))
    case "quickActions" => Some(Text("快速操作"))
    case "addContact" => Some(Text("添加联系人"))
    case "addOpportunity" => Some(Text("添加商机"))
    case "addCase" => Some(Text("添加案例"))
    case "addTask" => Some(Text("添加任务"))
    case "thisAccountIsClosed" => Some(Text("此客户已关闭"))
    case "reopenAccountToMakeChanges" => Some(Text("重新打开客户以进行更改"))
    case "reopenAccount" => Some(Text("重新打开客户"))
    case "closeAccount" => Some(Text("关闭客户"))
    case "creatingAccount" => Some(Text("创建中..."))
    case "createAccount" => Some(Text("创建客户"))
    case "opportunity" => Some(Text("商机"))
    case "opportunityName" => Some(Text("商机名称"))
    case "searchOpportunities" => Some(Text("搜索商机..."))
    case "noOpportunitiesFound" => Some(Text("未找到商机"))
    case "pipeline" => Some(Text("销售管道"))
    case "won" => Some(Text("赢单"))
    case "closeDate" => Some(Text("关闭日期"))
    case "closedBy" => Some(Text("关闭人"))
    case "closedOn" => Some(Text("关闭日期"))
    case "notAssigned" => Some(Text("未分配"))
    case "system" => Some(Text("系统"))
    case "products" => Some(Text("产品"))
    case "noProductsAddedYet" => Some(Text("尚未添加产品"))
    case "addProduct" => Some(Text("添加产品"))
    case "selectProduct" => Some(Text("选择产品..."))
    case "total" => Some(Text("总计"))
    case "markWon" => Some(Text("标记为赢单"))
    case "markLost" => Some(Text("标记为输单"))
    case "createOpportunity" => Some(Text("创建商机"))
    case "thisWillCreateANewInvoice" => Some(Text("这将从该商机创建一个新发票，包含"))
    case "product" => Some(Text("产品"))
    case "totaling" => Some(Text("总计"))
    case "createInvoice" => Some(Text("创建发票"))
    case "new" => Some(Text("新建"))
    case "case" => Some(Text("工单"))
    case "caseTitle" => Some(Text("工单标题"))
    case "newCase" => Some(Text("新建工单"))
    case "searchCases" => Some(Text("搜索工单..."))
    case "noCasesFound" => Some(Text("未找到工单"))
    case "priority" => Some(Text("优先级"))
    case "type" => Some(Text("类型"))
    case "list" => Some(Text("列表"))
    case "board" => Some(Text("看板"))
    case "closeCase" => Some(Text("关闭工单"))
    case "reopen" => Some(Text("重新打开"))
    case "saveChanges" => Some(Text("保存更改"))
    case "calendar" => Some(Text("日历"))
    case "newTask" => Some(Text("新建任务"))
    case "searchTasks" => Some(Text("搜索任务..."))
    case "noTasksFound" => Some(Text("未找到任务"))
    case "dueDate" => Some(Text("截止日期"))
    case "newInvoice" => Some(Text("新建发票"))
    case "searchInvoices" => Some(Text("搜索发票..."))
    case "noInvoicesYet" => Some(Text("暂无发票"))
    case "createFirstInvoice" => Some(Text("创建您的第一张发票以开始"))
    case "status" => Some(Text("状态"))
    case "issueDate" => Some(Text("开具日期"))
    case "openSourceForeverFree" => Some(Text("智能 • 开源 • 免费"))
    case "help" => Some(Text("帮助"))
    case "ourMission" => Some(Text("我们的使命"))
    case "missionDescription" => Some(Text("OpenCRM 通过提供完全免费、开源且高度可定制的解决方案，解决了商业 CRM 替代品的高昂订阅成本问题。克隆它，自托管它，让它成为您自己的 — 永远免费。"))
    case "community" => Some(Text("社区"))
    case "joinTheCommunity" => Some(Text("加入社区"))
    case "communityDescription" => Some(Text("与全球开发者合作。获得免费支持，分享想法，帮助塑造开源 CRM 的未来。"))
    case "openSource" => Some(Text("开源"))
    case "activeCommunity" => Some(Text("活跃社区"))
    case "visitGitHub" => Some(Text("访问 GitHub"))
    case "professionalSupport" => Some(Text("专业支持"))
    case "professionalSupportDescription" => Some(Text("来自核心团队的优先支持、托管协助和定制开发服务。"))
    case "contactTeam" => Some(Text("联系团队"))
    case "featureRequests" => Some(Text("功能请求"))
    case "featureRequestsDescription" => Some(Text("有想法吗？分享您的请求，帮助塑造 BottleCRM 的未来。"))
    case "requestFeature" => Some(Text("请求功能"))
    case "bugReports" => Some(Text("Bug 报告"))
    case "bugReportsDescription" => Some(Text("发现问题？您的反馈有助于使平台对所有人更加稳定。"))
    case "reportBug" => Some(Text("报告 Bug"))
    case "critical" => Some(Text("关键"))
    case "securityIssues" => Some(Text("安全问题"))
    case "securityIsOurPriority" => Some(Text("安全是我们的首要任务。"))
    case "reportVulnerabilitiesPrivately" => Some(Text("私下报告漏洞。"))
    case "neverCreatePublicIssuesForSecurityConcerns" => Some(Text("永远不要为安全问题创建公开问题。"))
    case "reportPrivately" => Some(Text("私下报告"))
    case "needCustomCrmDevelopment" => Some(Text("需要定制 CRM 开发？"))
    case "customDevelopmentDescription" => Some(Text("为您的特定业务需求提供量身定制的解决方案，包括托管、定制功能、集成和持续支持。"))
    case "getCustomQuote" => Some(Text("获取定制报价"))
    case _ => None
  }

  /** The own properties of `translations.zh.greeting`. */
  function ChineseGreeting(k: string): Option<Value> {
    match k
    case "morning" => Some(Text("早上好"))
    case "afternoon" => Some(Text("下午好"))
    case "evening" => Some(Text("晚上好"))
    case _ => None
  }

  /** The own properties of `translations.zh.focusBar`. */
  function ChineseFocusBar(k: string): Option<Value> {
    match k
    case "overdueTasks" => Some(Text("逾期任务"))
    case "tasksDueToday" => Some(Text("今日到期任务"))
    case "followupsToday" => Some(Text("今日跟进"))
    case "hotLeads" => Some(Text("热门线索"))
    case _ => None
  }

  /** The greeting and focus-bar tables hold only non-empty texts: no object is nested
      below them. */
  lemma NestedTablesHoldText(n: Node, k: string)
    requires !n.Root?
    ensures Property(n, k).Some? ==> Property(n, k).value.Text? && Property(n, k).value.s != ""
  {
  }
}
