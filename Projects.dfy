/** The two actions the dispatcher performs itself (main.py:37-46). */
module Projects {
  import opened Common
  import opened Strings
  import opened Args
  import opened Persistence

  /** `strftime('%Y%m%d')`: eight decimal digits. */
  predicate IsDateStamp(today: string)
  {
    |today| == 8 && AllDigits(today)
  }

  /** The id of a new project: today's date stamp followed by the decimal
      form of the number of projects already created today, plus one. */
  function ProjectId(today: string, todayCount: nat): (id: string)
    ensures |id| > |today|
  {
    today + NatToString(todayCount + 1)
  }

  /** The id splits back into the date stamp and a decimal suffix whose
      value is the day's count plus one. */
  lemma ProjectIdParts(today: string, todayCount: nat)
    ensures ProjectId(today, todayCount)[..|today|] == today
    ensures ProjectId(today, todayCount)[|today|..] == NatToString(todayCount + 1)
    ensures AllDigits(ProjectId(today, todayCount)[|today|..])
    ensures DecimalValue(ProjectId(today, todayCount)[|today|..]) == todayCount + 1
  {
    DecimalRoundTrip(todayCount + 1);
  }

  /** A date stamp gives an all-digit id whose first eight characters are the date. */
  lemma ProjectIdOfDateStamp(today: string, todayCount: nat)
    requires IsDateStamp(today)
    ensures AllDigits(ProjectId(today, todayCount))
    ensures ProjectId(today, todayCount)[..8] == today
  {
    var id := ProjectId(today, todayCount);
    assert forall k :: 8 <= k < |id| ==> id[k] == NatToString(todayCount + 1)[k - 8];
  }

  /** On one day, different counts give different ids, and equal ids need equal counts. */
  lemma ProjectIdInjective(today: string, a: nat, b: nat)
    ensures ProjectId(today, a) == ProjectId(today, b) <==> a == b
  {
    if ProjectId(today, a) == ProjectId(today, b) {
      ProjectIdParts(today, a);
      ProjectIdParts(today, b);
    }
  }

  /** Two serialized creations on one day: the second id differs from the
      first and its numeric suffix is exactly one greater. */
  lemma SuccessiveIdsOnOneDay(today: string, todayCount: nat)
    ensures ProjectId(today, todayCount) != ProjectId(today, todayCount + 1)
    ensures DecimalValue(ProjectId(today, todayCount + 1)[|today|..])
         == DecimalValue(ProjectId(today, todayCount)[|today|..]) + 1
  {
    ProjectIdInjective(today, todayCount, todayCount + 1);
    ProjectIdParts(today, todayCount);
    ProjectIdParts(today, todayCount + 1);
  }

  /** The record `(id, ts, None, None, None)` of line 41. */
  function NewProject(today: string, now: int, todayCount: nat): ProjectRecord
  {
    ProjectRecord(ProjectId(today, todayCount), now, None, None, None)
  }

  /** `createProject`: read the day's count, then store one new record. */
  function CreateProjectTrace(today: string, now: int, todayCount: nat): (calls: seq<Call>)
  {
    [CheckTodayProjects, CreateNewProject(NewProject(today, now, todayCount))]
  }

  /** `createProject` makes exactly one create call, for the new record, and
      deletes and updates nothing. */
  lemma CreateProjectCalls(today: string, now: int, todayCount: nat)
    ensures var calls := CreateProjectTrace(today, now, todayCount);
      && |calls| == 2 && calls[0] == CheckTodayProjects
      && calls[1] == CreateNewProject(ProjectRecord(today + NatToString(todayCount + 1), now, None, None, None))
      && (forall i :: 0 <= i < |calls| ==> !calls[i].DeleteProject? && !calls[i].UpdateProject?)
      && (forall i :: 0 <= i < |calls| && calls[i].CreateNewProject? ==> i == 1)
  {
  }

  /** `deleteProject`: delete the project named by `--projectId`; without
      that key the lookup raises before any call. */
  function DeleteProjectTrace(args: ArgMap): (r: Result<seq<Call>>)
    ensures r.Ok? <==> Lookup(args, ProjectIdKey).Some?
    ensures r.Ok? ==> r.value == [Call.DeleteProject(Lookup(args, ProjectIdKey).value)]
    ensures r.Err? ==> r.error == MissingKey(ProjectIdKey)
  {
    match Lookup(args, ProjectIdKey)
    case None => Err(MissingKey(ProjectIdKey))
    case Some(id) => Ok([Call.DeleteProject(id)])
  }
}
