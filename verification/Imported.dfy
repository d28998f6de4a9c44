/** What an import source delivers (backend/internal/domain/import.go). */
module Imported {
  import opened Base
  import opened Statuses
  import opened Lifecycle

  datatype ImportedComponent = ImportedComponent(
    externalId: string,
    name: string,
    description: string,
    status: ComponentStatus,
    parentExternalId: string,
    groupName: string,
    isPrivate: bool)

  datatype ImportedUpdate = ImportedUpdate(status: IncidentStatus, body: string, createdAt: Time)

  datatype ImportedIncident = ImportedIncident(
    externalId: string,
    title: string,
    impact: Impact,
    status: IncidentStatus,
    startedAt: Time,
    resolvedAt: Option<Time>,
    updates: seq<ImportedUpdate>,
    components: seq<string>)

  datatype ImportedMaintenance = ImportedMaintenance(
    externalId: string,
    title: string,
    description: string,
    status: MaintenanceStatus,
    startAt: Time,
    endAt: Time,
    components: seq<string>)

  datatype ImportedSubscriber = ImportedSubscriber(externalId: string, email: string)

  /** The answer to one fetch; items may come with an error or without. */
  datatype Fetched<T> = Fetched(items: seq<T>, failed: bool)
}
