/**
 * The records of a multi-project, multi-mode resource-constrained project
 * scheduling instance (`pyjobshop/parse/project/ProjectInstance.py`), as
 * the instance parsers produce them.
 */
module ProjectInstance {
  datatype Resource = Resource(capacity: int, renewable: bool)

  /** A processing mode: its duration and one demand per resource. */
  datatype Mode = Mode(duration: int, demands: seq<int>)

  /** An activity: its modes, the indices of its successors and an optional name. */
  datatype Activity = Activity(modes: seq<Mode>, successors: seq<int>, name: string)
  {
    function NumModes(): nat
    {
      |modes|
    }
  }

  /** `Activity(modes, successors)`: the name defaults to the empty string. */
  function NewActivity(modes: seq<Mode>, successors: seq<int>, name: string := ""): Activity
  {
    Activity(modes, successors, name)
  }

  /** A project: the indices of its activities and its release date. */
  datatype Project = Project(activities: seq<int>, releaseDate: int)
  {
    function NumActivities(): nat
    {
      |activities|
    }
  }

  /** `Project(activities)`: the release date defaults to 0. */
  function NewProject(activities: seq<int>, releaseDate: int := 0): Project
  {
    Project(activities, releaseDate)
  }

  datatype ProjectInstance = ProjectInstance(resources: seq<Resource>, projects: seq<Project>, activities: seq<Activity>)
  {
    function NumResources(): nat
    {
      |resources|
    }

    function NumProjects(): nat
    {
      |projects|
    }

    function NumActivities(): nat
    {
      |activities|
    }
  }
}
