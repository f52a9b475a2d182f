/** The collaborators of the dispatcher as seen from outside: the project
    record it stores and the calls it makes, recorded in the order made. */
module Persistence {
  import opened Common

  /** A project row: id, creation time in epoch seconds, then the payload
      details, the data-management-system link and the proposal-manager link,
      which may each be null. */
  datatype ProjectRecord = ProjectRecord(
    id: string,
    created: int,
    details: Option<string>,
    dataManagementSystem: Option<string>,
    proposalManager: Option<string>)

  datatype Call =
    | CheckTodayProjects                                              // db.utils.check_today_projects()
    | CreateNewProject(record: ProjectRecord)                         // db.utils.create_new_project(record)
    | DeleteProject(projectId: string)                                // db.utils.delete_project(id)
    | UpdateProject(projectId: string, field: string, value: string)  // db.utils.update_project(id, field, value)
    | RunPlugin(command: seq<string>)                                 // subprocess.Popen(command)

  /** No call in the trace creates or deletes a project. */
  predicate NoCreateOrDelete(calls: seq<Call>)
  {
    forall i :: 0 <= i < |calls| ==> !calls[i].CreateNewProject? && !calls[i].DeleteProject?
  }

  /** Starting a process before such a trace creates and deletes nothing either. */
  lemma NoCreateOrDeleteAfterLaunch(launch: Call, calls: seq<Call>)
    requires launch.RunPlugin? && NoCreateOrDelete(calls)
    ensures NoCreateOrDelete([launch] + calls)
  {
    assert forall i :: 1 <= i < |[launch] + calls| ==> ([launch] + calls)[i] == calls[i - 1];
  }

  /** No call in the trace updates a project. */
  predicate NoUpdates(calls: seq<Call>)
  {
    forall i :: 0 <= i < |calls| ==> !calls[i].UpdateProject?
  }
}
