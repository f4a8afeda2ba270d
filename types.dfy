/** The records the risk-scoring pipeline consumes and produces (types.ts). */
module Types {

  /** The closed set of project categories; a project's peer group is its category. */
  datatype ProjectType = Forestry | Solar | Wind | Methane | Hydro

  /** One reported carbon-offset project claim. Quantities are reals: the source keeps them
      as floating-point numbers, whose rounding this model does not follow. */
  datatype CarbonProject = CarbonProject(
    id: string,
    projectName: string,
    projectType: ProjectType,
    region: string,
    claimedReduction: real,   // tons of CO2-equivalent
    creditsIssued: real,
    durationMonths: real)

  /** A scored project: the input record, carried verbatim, plus the six computed fields. */
  datatype AnalysisResult = AnalysisResult(
    project: CarbonProject,
    reductionRate: real,      // reduction per month
    groupMean: real,
    groupStdDev: real,
    zScore: real,
    riskScore: real,          // strictly between 0 and 1
    isAnomaly: bool)
}
