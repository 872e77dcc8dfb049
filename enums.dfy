/**
 * The enumerations of the persistence schemas, as datatypes: the status of
 * a project, the kind of an uploaded media file and the status of a durable
 * AI job record.
 */
module Enums {

  datatype ProjectStatus = Active | Archived | Deleted

  function ProjectStatusName(s: ProjectStatus): string {
    match s
    case Active => "active"
    case Archived => "archived"
    case Deleted => "deleted"
  }

  datatype MediaType = Image | Video | Audio | Text

  /** Status of a durable AI job record. */
  datatype RecordStatus = RecordQueued | RecordProcessing | RecordCompleted | RecordFailed | RecordCancelled
}
