/** A model of the "truth-seeker" reasoning agent of the TransitMesh bus tracker:
    the rule that fuses the onboard GPS status, the driver-face check, the driver's
    mobile status and the number of opted-in passenger devices into one verdict
    (a confidence score, a status label and a message), and the three-way severity
    with which the dashboard shows that verdict. */
module BusTracker {

  /** The sensor value that marks the onboard GPS as down. Every other value counts as live. */
  const Offline: string := "OFFLINE"

  /** The driver-mobile value that counts as corroborating the route. */
  const OnRoute: string := "ON_ROUTE"

  /** The triple the agent returns: confidence score, status label, message. */
  datatype Verdict = Verdict(confidence: int, status: string, message: string)

  const VerifiedByRiderMesh: Verdict :=
    Verdict(98, "VERIFIED BY RIDER MESH", "SUCCESS: High-confidence location via passenger & driver mesh.")
  const ProbableLocation: Verdict :=
    Verdict(75, "PROBABLE LOCATION", "CAUTION: Hardware down. Location estimated via driver and few riders.")
  const StatusUncertain: Verdict :=
    Verdict(45, "STATUS UNCERTAIN", "WARNING: Hardware down. Only driver mobile detected.")
  const GhostBusAlert: Verdict :=
    Verdict(5, "GHOST BUS ALERT", "ERROR: No reliable signal from bus, driver, or mesh. Likely out of service.")
  const HardwareLive: Verdict :=
    Verdict(100, "HARDWARE LIVE", "Bus is actively broadcasting GPS signal.")

  /** The five verdicts the agent can give; each fixes its label and message. */
  const Verdicts: set<Verdict> :=
    {VerifiedByRiderMesh, ProbableLocation, StatusUncertain, GhostBusAlert, HardwareLive}

  /** The driver's "prime evidence": the face is seen in the cabin feed and the
      driver's phone reports being on the route. */
  predicate PrimeEvidence(driverFaceActive: bool, driverMobile: string) {
    driverFaceActive && driverMobile == OnRoute
  }

  /** The agent's decision: live hardware GPS preempts everything; with the hardware
      down, the driver's prime evidence is required before the passenger mesh is
      consulted at all. */
  function EvaluateLocation(hwGps: string, driverFaceActive: bool, driverMobile: string, meshPassengers: int): (v: Verdict)
    ensures v in Verdicts
    ensures 0 <= v.confidence <= 100
  {
    if hwGps == Offline then
      if PrimeEvidence(driverFaceActive, driverMobile) then
        if meshPassengers >= 3 then VerifiedByRiderMesh
        else if meshPassengers > 0 then ProbableLocation
        else StatusUncertain
      else GhostBusAlert
    else HardwareLive
  }

  // ---------------------------------------------------------------------------
  // Which inputs lead to which verdict (the exact preimage of each verdict)
  // ---------------------------------------------------------------------------

  /** Any GPS value other than "OFFLINE" gives the live verdict, whatever the
      driver and mesh readings are, and only such a value gives it. */
  lemma HardwareLivePreempts(hwGps: string, driverFaceActive: bool, driverMobile: string, meshPassengers: int)
    ensures EvaluateLocation(hwGps, driverFaceActive, driverMobile, meshPassengers) == HardwareLive
            <==> hwGps != Offline
  {
  }

  /** With the GPS down, the ghost-bus alert fires exactly when the prime evidence fails. */
  lemma GhostBusExactly(hwGps: string, driverFaceActive: bool, driverMobile: string, meshPassengers: int)
    ensures EvaluateLocation(hwGps, driverFaceActive, driverMobile, meshPassengers) == GhostBusAlert
            <==> hwGps == Offline && !PrimeEvidence(driverFaceActive, driverMobile)
  {
  }

  /** Three or more corroborating passengers, behind prime evidence, verify the location, and nothing else does. */
  lemma VerifiedExactly(hwGps: string, driverFaceActive: bool, driverMobile: string, meshPassengers: int)
    ensures EvaluateLocation(hwGps, driverFaceActive, driverMobile, meshPassengers) == VerifiedByRiderMesh
            <==> hwGps == Offline && PrimeEvidence(driverFaceActive, driverMobile) && meshPassengers >= 3
  {
  }

  /** One or two corroborating passengers, behind prime evidence, give a probable location, and nothing else does. */
  lemma ProbableExactly(hwGps: string, driverFaceActive: bool, driverMobile: string, meshPassengers: int)
    ensures EvaluateLocation(hwGps, driverFaceActive, driverMobile, meshPassengers) == ProbableLocation
            <==> hwGps == Offline && PrimeEvidence(driverFaceActive, driverMobile) && 1 <= meshPassengers <= 2
  {
  }

  /** Prime evidence with no positive mesh count (zero or below) leaves the status
      uncertain, and nothing else does. */
  lemma UncertainExactly(hwGps: string, driverFaceActive: bool, driverMobile: string, meshPassengers: int)
    ensures EvaluateLocation(hwGps, driverFaceActive, driverMobile, meshPassengers) == StatusUncertain
            <==> hwGps == Offline && PrimeEvidence(driverFaceActive, driverMobile) && meshPassengers <= 0
  {
  }

  // ---------------------------------------------------------------------------
  // Properties of the policy
  // ---------------------------------------------------------------------------

  /** No mesh count can make up for a failed driver check: the verdict does not depend on it. */
  lemma MeshCannotOverrideDriver(driverFaceActive: bool, driverMobile: string, mesh1: int, mesh2: int)
    requires !PrimeEvidence(driverFaceActive, driverMobile)
    ensures EvaluateLocation(Offline, driverFaceActive, driverMobile, mesh1)
         == EvaluateLocation(Offline, driverFaceActive, driverMobile, mesh2)
         == GhostBusAlert
  {
  }

  /** Behind prime evidence, confidence takes only the plateau values 45, 75 and 98. */
  lemma MeshPlateaus(meshPassengers: int)
    ensures EvaluateLocation(Offline, true, OnRoute, meshPassengers).confidence in {45, 75, 98}
  {
  }

  /** Behind prime evidence, more corroborating passengers never lower the confidence. */
  lemma MeshMonotone(mesh1: int, mesh2: int)
    requires mesh1 <= mesh2
    ensures EvaluateLocation(Offline, true, OnRoute, mesh1).confidence
         <= EvaluateLocation(Offline, true, OnRoute, mesh2).confidence
  {
  }

  /** With the GPS down, any reading with prime evidence scores strictly above any reading without it. */
  lemma PrimeEvidenceDominates(face1: bool, mobile1: string, mesh1: int, face2: bool, mobile2: string, mesh2: int)
    requires PrimeEvidence(face1, mobile1) && !PrimeEvidence(face2, mobile2)
    ensures EvaluateLocation(Offline, face1, mobile1, mesh1).confidence
          > EvaluateLocation(Offline, face2, mobile2, mesh2).confidence
  {
  }

  /** The five verdicts carry five different labels, so the label shown identifies the branch taken. */
  lemma LabelsIdentifyVerdicts(v1: Verdict, v2: Verdict)
    requires v1 in Verdicts && v2 in Verdicts
    ensures v1.status == v2.status <==> v1 == v2
  {
  }

  /** Every one of the five verdicts is given for some reading: none is dead code. */
  lemma VerdictReachable(v: Verdict)
    requires v in Verdicts
    ensures exists hwGps, driverFaceActive, driverMobile, meshPassengers ::
              EvaluateLocation(hwGps, driverFaceActive, driverMobile, meshPassengers) == v
  {
    if v == HardwareLive {
      assert EvaluateLocation("LIVE", false, "UNKNOWN", 0) == v;
    } else if v == GhostBusAlert {
      assert EvaluateLocation(Offline, false, OnRoute, 20) == v;
    } else if v == VerifiedByRiderMesh {
      assert EvaluateLocation(Offline, true, OnRoute, 3) == v;
    } else if v == ProbableLocation {
      assert EvaluateLocation(Offline, true, OnRoute, 1) == v;
    } else {
      assert EvaluateLocation(Offline, true, OnRoute, 0) == v;
    }
  }

  /** The confidence scores the agent can report are exactly 5, 45, 75, 98 and 100. */
  lemma ConfidenceValues(c: int)
    ensures (exists hwGps, driverFaceActive, driverMobile, meshPassengers ::
               EvaluateLocation(hwGps, driverFaceActive, driverMobile, meshPassengers).confidence == c)
            <==> c in {5, 45, 75, 98, 100}
  {
    var v := if c == 5 then GhostBusAlert
             else if c == 45 then StatusUncertain
             else if c == 75 then ProbableLocation
             else if c == 98 then VerifiedByRiderMesh
             else HardwareLive;
    if c in {5, 45, 75, 98, 100} {
      VerdictReachable(v);
    }
  }

  /** Sample readings, using the selector values the dashboard offers ("LIVE"/"OFFLINE",
      "ON_ROUTE"/"UNKNOWN") and passenger counts within its 0 to 20 slider. */
  lemma Scenarios()
    ensures EvaluateLocation("LIVE", false, "UNKNOWN", 0) == HardwareLive
    ensures EvaluateLocation("OFFLINE", true, "ON_ROUTE", 5) == VerifiedByRiderMesh
    ensures EvaluateLocation("OFFLINE", true, "ON_ROUTE", 2) == ProbableLocation
    ensures EvaluateLocation("OFFLINE", true, "ON_ROUTE", 0) == StatusUncertain
    ensures EvaluateLocation("OFFLINE", false, "ON_ROUTE", 20) == GhostBusAlert
    ensures EvaluateLocation("OFFLINE", true, "UNKNOWN", 10) == GhostBusAlert
  {
  }

  // ---------------------------------------------------------------------------
  // Severity: how the dashboard shows a confidence score
  // ---------------------------------------------------------------------------

  /** The three display boxes: success (green), warning (yellow), error (red). */
  datatype Severity = Success | Warning | Error {
    /** Error < Warning < Success. */
    function Rank(): nat {
      match this
      case Error => 0
      case Warning => 1
      case Success => 2
    }
  }

  /** The thresholds at 80 and 40 split the integers into three ranges with no gap and no overlap. */
  function SeverityOf(confidence: int): (s: Severity)
    ensures s == Success <==> confidence > 80
    ensures s == Warning <==> 40 < confidence <= 80
    ensures s == Error <==> confidence <= 40
  {
    if confidence > 80 then Success
    else if confidence > 40 then Warning
    else Error
  }

  /** A higher score is never shown with a less favourable box, so each box covers one contiguous range. */
  lemma SeverityMonotone(c1: int, c2: int)
    requires c1 <= c2
    ensures SeverityOf(c1).Rank() <= SeverityOf(c2).Rank()
  {
  }

  /** Each box is used for some score in [0, 100]. */
  lemma SeverityReachable(s: Severity)
    ensures exists c :: 0 <= c <= 100 && SeverityOf(c) == s
  {
    match s
    case Success => assert SeverityOf(100) == s;
    case Warning => assert SeverityOf(50) == s;
    case Error => assert SeverityOf(0) == s;
  }

  /** Composed with the agent: 100 and 98 are shown as success, 75 and 45 as warning,
      5 as error; stated on the readings, green means live hardware or a full mesh,
      yellow a verified driver with fewer than three riders, red a failed driver check. */
  lemma VerdictSeverity(hwGps: string, driverFaceActive: bool, driverMobile: string, meshPassengers: int)
    ensures var s := SeverityOf(EvaluateLocation(hwGps, driverFaceActive, driverMobile, meshPassengers).confidence);
            && (s == Success <==> hwGps != Offline || (PrimeEvidence(driverFaceActive, driverMobile) && meshPassengers >= 3))
            && (s == Warning <==> hwGps == Offline && PrimeEvidence(driverFaceActive, driverMobile) && meshPassengers < 3)
            && (s == Error <==> hwGps == Offline && !PrimeEvidence(driverFaceActive, driverMobile))
  {
  }
}
