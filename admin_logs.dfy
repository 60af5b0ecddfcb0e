/** The activity-log screen: attaching the admin's name, the one-line description of
    each action, searching and filtering, and the list of action types offered in
    the filter. */
module AdminLogs {
  import opened Collections
  import opened Text

  /** A row of `admin_logs` joined with the acting admin's profile name.
      The `details` object is read as text by key. */
  datatype RawLog = RawLog(
    id: int,
    adminId: string,
    actionType: string,
    targetType: string,
    targetId: string,
    details: map<string, string>,
    ipAddress: Option<string>,
    userAgent: Option<string>,
    createdAt: string,
    profileName: Option<string>)

  /** The row as the screen holds it, with the name to show for the admin. */
  datatype AdminLog = AdminLog(raw: RawLog, adminName: string)

  const UnknownAdmin: string := "Unknown Admin"

  /** `log.profiles?.full_name || 'Unknown Admin'`: a missing or empty name falls back. */
  function WithAdminName(raw: RawLog): (r: AdminLog)
    ensures r.raw == raw
    ensures r.adminName == UnknownAdmin <==> raw.profileName.None? || raw.profileName.value in {"", UnknownAdmin}
    ensures r.adminName != UnknownAdmin ==> raw.profileName == Some(r.adminName)
  {
    AdminLog(raw, if raw.profileName.Some? && raw.profileName.value != "" then raw.profileName.value else UnknownAdmin)
  }

  /** `fetchLogs`: the joined rows with names attached (none for a null result); an error
      leaves the logs as they were. */
  function FetchLogs(current: seq<AdminLog>, ok: bool, data: Option<seq<RawLog>>): (r: seq<AdminLog>)
    ensures !ok ==> r == current
    ensures ok && data.None? ==> r == []
    ensures ok && data.Some? ==> |r| == |data.value| && forall i :: 0 <= i < |r| ==> r[i] == WithAdminName(data.value[i])
  {
    if !ok then current
    else if data.None? then []
    else seq(|data.value|, i requires 0 <= i < |data.value| => WithAdminName(data.value[i]))
  }

  /** A template slot: the value under the key, or what JavaScript prints for a missing one. */
  function Slot(details: map<string, string>, key: string): string
  {
    if key in details then details[key] else "undefined"
  }

  /** The cases of the `action_type` switch. */
  datatype ActionKind = UserStatusUpdate | UserRoleUpdate | UserProfileUpdate | OrderStatusUpdate | PasswordReset | OtherAction

  function KindOf(actionType: string): ActionKind
  {
    match actionType
    case "user_status_update" => UserStatusUpdate
    case "user_role_update" => UserRoleUpdate
    case "user_profile_update" => UserProfileUpdate
    case "order_status_update" => OrderStatusUpdate
    case "password_reset" => PasswordReset
    case _ => OtherAction
  }

  const KnownActions: set<string> :=
    {"user_status_update", "user_role_update", "user_profile_update", "order_status_update", "password_reset"}

  /** Exactly the five known type names have a case of their own. */
  lemma KindOfKnown(actionType: string)
    ensures KindOf(actionType) == OtherAction <==> actionType !in KnownActions
  {
  }

  /** `getActionDescription`. */
  function ActionDescription(log: RawLog): string
  {
    match KindOf(log.actionType)
    case UserStatusUpdate =>
      "Updated user status to \"" + Slot(log.details, "new_status") + "\" for user " + log.targetId
    case UserRoleUpdate =>
      "Changed user role to \"" + Slot(log.details, "new_role") + "\" for user " + log.targetId
    case UserProfileUpdate =>
      "Updated profile information for user " + log.targetId
    case OrderStatusUpdate =>
      "Changed order #" + log.targetId + " status from \"" + Slot(log.details, "old_status")
        + "\" to \"" + Slot(log.details, "new_status") + "\""
    case PasswordReset =>
      "Reset password for user " + log.targetId
    case OtherAction =>
      "Performed " + log.actionType + " on " + log.targetType + " " + log.targetId
  }

  /** The text of a description before and after its target id. */
  function AroundTarget(log: RawLog): (string, string)
  {
    match KindOf(log.actionType)
    case UserStatusUpdate => ("Updated user status to \"" + Slot(log.details, "new_status") + "\" for user ", "")
    case UserRoleUpdate => ("Changed user role to \"" + Slot(log.details, "new_role") + "\" for user ", "")
    case UserProfileUpdate => ("Updated profile information for user ", "")
    case OrderStatusUpdate =>
      ("Changed order #", " status from \"" + Slot(log.details, "old_status") + "\" to \""
                          + Slot(log.details, "new_status") + "\"")
    case PasswordReset => ("Reset password for user ", "")
    case OtherAction => ("Performed " + log.actionType + " on " + log.targetType + " ", "")
  }

  lemma DescriptionAroundTarget(log: RawLog)
    ensures ActionDescription(log) == AroundTarget(log).0 + log.targetId + AroundTarget(log).1
  {
    var t := log.targetId;
    match KindOf(log.actionType)
    case OrderStatusUpdate =>
    case _ =>
      var pre := AroundTarget(log).0;
      assert AroundTarget(log).1 == [];
      assert pre + t + [] == pre + t;
  }

  /** Every description names the target of the action. */
  lemma DescriptionNamesTarget(log: RawLog)
    ensures Includes(ActionDescription(log), log.targetId)
  {
    DescriptionAroundTarget(log);
    IncludesMiddle(AroundTarget(log).0, log.targetId, AroundTarget(log).1);
  }

  /** A status or role change also shows the new value it recorded. */
  lemma DescriptionNamesValue(log: RawLog)
    ensures log.actionType == "user_status_update" ==> Includes(ActionDescription(log), Slot(log.details, "new_status"))
    ensures log.actionType == "user_role_update" ==> Includes(ActionDescription(log), Slot(log.details, "new_role"))
  {
    var t := log.targetId;
    if KindOf(log.actionType) == UserStatusUpdate {
      var v := Slot(log.details, "new_status");
      IncludesMiddle("Updated user status to \"", v, "\" for user " + t);
      assert "Updated user status to \"" + v + ("\" for user " + t) == ActionDescription(log);
    } else if KindOf(log.actionType) == UserRoleUpdate {
      var v := Slot(log.details, "new_role");
      IncludesMiddle("Changed user role to \"", v, "\" for user " + t);
      assert "Changed user role to \"" + v + ("\" for user " + t) == ActionDescription(log);
    }
  }

  /** The generic "Performed ..." text is used exactly for the action types without a
      template of their own. */
  lemma DescriptionGeneric(log: RawLog)
    ensures StartsWith(ActionDescription(log), "Performed ") <==> log.actionType !in KnownActions
  {
    var d := ActionDescription(log);
    KindOfKnown(log.actionType);
    if KindOf(log.actionType) != OtherAction {
      assert d[0] != 'P';
    } else {
      assert d[..10] == "Performed ";
    }
  }

  /** Search matches the admin's name or the action type case-insensitively, or the
      target id by plain substring. */
  predicate MatchesSearch(log: AdminLog, term: string)
  {
    Includes(LowerStr(log.adminName), LowerStr(term))
      || Includes(LowerStr(log.raw.actionType), LowerStr(term))
      || Includes(log.raw.targetId, term)
  }

  predicate MatchesAction(log: AdminLog, actionFilter: string)
  {
    actionFilter == "all" || log.raw.actionType == actionFilter
  }

  /** `filteredLogs`; the date-range test is a parameter, since it reads the clock. */
  function FilteredLogs(logs: seq<AdminLog>, term: string, actionFilter: string,
                        inDateRange: AdminLog -> bool): seq<AdminLog>
  {
    Filter(logs, (l: AdminLog) => MatchesSearch(l, term) && MatchesAction(l, actionFilter) && inDateRange(l))
  }

  /** A log is listed iff it matches the search, the action filter and the date range;
      the list is an order-preserving sub-list of the logs, and the whole list when the
      search is empty and both filters are at 'all'. */
  lemma FilteredLogsSpec(logs: seq<AdminLog>, term: string, actionFilter: string, inDateRange: AdminLog -> bool)
    ensures forall l :: l in FilteredLogs(logs, term, actionFilter, inDateRange) <==>
              l in logs && MatchesSearch(l, term) && MatchesAction(l, actionFilter) && inDateRange(l)
    ensures IsSublist(FilteredLogs(logs, term, actionFilter, inDateRange), logs)
    ensures forall l :: multiset(FilteredLogs(logs, term, actionFilter, inDateRange))[l] ==
              if MatchesSearch(l, term) && MatchesAction(l, actionFilter) && inDateRange(l) then multiset(logs)[l] else 0
    ensures term == "" && actionFilter == "all" && (forall l :: inDateRange(l)) ==>
              FilteredLogs(logs, term, actionFilter, inDateRange) == logs
  {
    var p := (l: AdminLog) => MatchesSearch(l, term) && MatchesAction(l, actionFilter) && inDateRange(l);
    forall l ensures l in FilteredLogs(logs, term, actionFilter, inDateRange) <==> l in logs && p(l) {
      FilterMembership(logs, p, l);
    }
    FilterIsSublist(logs, p);
    forall l ensures multiset(FilteredLogs(logs, term, actionFilter, inDateRange))[l] ==
                       if p(l) then multiset(logs)[l] else 0 {
      FilterMultiset(logs, p, l);
    }
    if term == "" && actionFilter == "all" && (forall l :: inDateRange(l)) {
      forall i | 0 <= i < |logs| ensures p(logs[i]) {
        IncludesEmpty(LowerStr(logs[i].adminName));
      }
      FilterKeepsAll(logs, p);
    }
  }

  function ActionTypeList(logs: seq<AdminLog>): (r: seq<string>)
    ensures |r| == |logs|
    ensures forall i :: 0 <= i < |logs| ==> r[i] == logs[i].raw.actionType
  {
    seq(|logs|, i requires 0 <= i < |logs| => logs[i].raw.actionType)
  }

  /** `[...new Set(logs.map(log => log.action_type))]`. */
  function ActionTypes(logs: seq<AdminLog>): seq<string>
  {
    Distinct(ActionTypeList(logs))
  }

  /** Each action type is offered once, and exactly the types present in the logs are
      offered, in order of first appearance. */
  lemma ActionTypesSpec(logs: seq<AdminLog>)
    ensures NoDuplicates(ActionTypes(logs))
    ensures forall t :: t in ActionTypes(logs) <==> exists i :: 0 <= i < |logs| && logs[i].raw.actionType == t
    ensures IsSublist(ActionTypes(logs), ActionTypeList(logs))
    ensures forall i, j :: 0 <= i < j < |ActionTypes(logs)| ==>
              FirstIndex(ActionTypeList(logs), ActionTypes(logs)[i]) < FirstIndex(ActionTypeList(logs), ActionTypes(logs)[j])
  {
    DistinctFirstOrder(ActionTypeList(logs));
    var all := ActionTypeList(logs);
    forall t ensures t in ActionTypes(logs) <==> exists i :: 0 <= i < |logs| && logs[i].raw.actionType == t {
      if t in ActionTypes(logs) {
        var k :| 0 <= k < |ActionTypes(logs)| && ActionTypes(logs)[k] == t;
        assert t in all;
        var i :| 0 <= i < |all| && all[i] == t;
        assert logs[i].raw.actionType == t;
      }
      if exists i :: 0 <= i < |logs| && logs[i].raw.actionType == t {
        var i :| 0 <= i < |logs| && logs[i].raw.actionType == t;
        assert all[i] == t;
      }
    }
    DistinctIsSublist(all);
  }
}
