# TransitMesh bus tracker: the truth-seeker agent

TransitMesh is a demo dashboard. It shows how sure it is that a bus is where it appears to be. Its reasoning agent, `BusTruthAgent`, fuses four readings into one verdict:

- the onboard GPS status;
- whether the driver's face was detected in the cabin camera;
- the driver's mobile status;
- the number of opted-in passenger devices on the bus (the "rider mesh").

The verdict is a confidence score, a status label and a message. The dashboard then shows the verdict in a green, yellow or red box, chosen by two thresholds on the score.

This project models both decisions in one Dafny module, `BusTracker` (`bus_tracker.dfy`):

- `EvaluateLocation` is the agent's rule. Any GPS value other than `"OFFLINE"` gives 100 / HARDWARE LIVE. With the GPS down, the driver's "prime evidence" (face detected and mobile `"ON_ROUTE"`) is required. Without it the result is 5 / GHOST BUS ALERT, whatever the mesh says. With it, the mesh count picks 98 (three or more), 75 (one or two) or 45 (zero or below).
- `SeverityOf` is the dashboard's thresholding: above 80 is success, above 40 is warning, anything else is error.
- Each of the five verdicts is a constant holding the source's exact score, label and message. `Verdicts` is the set of all five.

The inputs are modelled as the code treats them. The GPS status and the driver mobile status are strings, and only `"OFFLINE"` and `"ON_ROUTE"` are tested. The mesh count is an `int`, and the last branch catches every count of zero or below. The dashboard's selectors offer only "LIVE"/"OFFLINE" and "ON_ROUTE"/"UNKNOWN", and its slider ranges over 0 to 20 (bus_tracker.py:47-49), but the function itself accepts any string and any integer, and so does the model. The three display tiers are named after the `st.success`, `st.warning` and `st.error` calls at bus_tracker.py:78-83.

The agent keeps no state and performs no I/O, so it is modelled as pure functions. Calling it twice on the same readings gives the same verdict, because Dafny functions are deterministic.

## Model

| member | source | states |
|---|---|---|
| BusTracker.EvaluateLocation | bus_tracker.py:14-30 | every verdict is one of the five fixed (score, label, message) triples, and its confidence lies in [0, 100] |
| BusTracker.PrimeEvidence | bus_tracker.py:18 | the driver's prime evidence: the face flag is true and the driver mobile status is exactly "ON_ROUTE"; the hypothesis the branch lemmas below state their cases with |
| BusTracker.HardwareLivePreempts | bus_tracker.py:16-30 | the verdict is HARDWARE LIVE exactly when the GPS reading is anything other than "OFFLINE", whatever the other three readings are |
| BusTracker.GhostBusExactly | bus_tracker.py:16-27 | the verdict is GHOST BUS ALERT exactly when the GPS is "OFFLINE" and the face flag is false or the mobile status is not "ON_ROUTE" |
| BusTracker.VerifiedExactly | bus_tracker.py:16-21 | the verdict is VERIFIED BY RIDER MESH (98) exactly when the GPS is "OFFLINE", prime evidence holds and the mesh count is at least 3 |
| BusTracker.ProbableExactly | bus_tracker.py:16-23 | the verdict is PROBABLE LOCATION (75) exactly when the GPS is "OFFLINE", prime evidence holds and the mesh count is 1 or 2 |
| BusTracker.UncertainExactly | bus_tracker.py:16-25 | the verdict is STATUS UNCERTAIN (45) exactly when the GPS is "OFFLINE", prime evidence holds and the mesh count is zero or negative |
| BusTracker.MeshCannotOverrideDriver | bus_tracker.py:18-27 | when prime evidence fails, every mesh count gives the same verdict, GHOST BUS ALERT |
| BusTracker.MeshPlateaus | bus_tracker.py:20-25 | under prime evidence the confidence is always one of 45, 75 and 98 |
| BusTracker.MeshMonotone | bus_tracker.py:20-25 | under prime evidence the confidence never decreases as the mesh count grows |
| BusTracker.PrimeEvidenceDominates | bus_tracker.py:18-27 | with the GPS down, any reading with prime evidence scores strictly higher than any reading without it |
| BusTracker.LabelsIdentifyVerdicts | bus_tracker.py:21-30 | two of the five verdicts share a label only if they are the same verdict, so the label shows which branch fired |
| BusTracker.VerdictReachable | bus_tracker.py:14-30 | each of the five verdicts is produced by some reading, so no branch is dead |
| BusTracker.ConfidenceValues | bus_tracker.py:14-30 | a score is produced by some reading if and only if it is 5, 45, 75, 98 or 100 |
| BusTracker.Scenarios | bus_tracker.py:14-30 | sample readings built from the dashboard's selector values and slider range give the expected verdicts, e.g. a mesh of 20 does not rescue a driver who was not detected |
| BusTracker.SeverityOf | bus_tracker.py:78-83 | success exactly for scores above 80, warning exactly for scores in (40, 80], error exactly for scores at or below 40; the three ranges cover every integer and do not overlap |
| BusTracker.SeverityMonotone | bus_tracker.py:78-83 | a higher score is never shown in a less favourable box (error < warning < success), so each box covers one contiguous range |
| BusTracker.SeverityReachable | bus_tracker.py:78-83 | each of the three boxes is used for some score in [0, 100] |
| BusTracker.VerdictSeverity | bus_tracker.py:73-83 | composing the agent with the thresholding: green exactly when the hardware is live or prime evidence has three or more riders, yellow exactly for prime evidence with fewer than three riders, red exactly when prime evidence fails with the hardware down (100 and 98 are success, 75 and 45 warning, 5 error) |

## Left out

- Face detection (`detect_driver_presence`, bus_tracker.py:33-38) calls a pre-trained OpenCV Haar cascade on an image. That library is not part of this model. Its result enters only as the boolean `driverFaceActive`.
- The Streamlit page is not modelled: sidebar selectors and slider, camera input, columns, success/warning boxes, metric and map (bus_tracker.py:41-104). It is presentation and I/O. Only the threshold choice at lines 78-83 is modelled, as `SeverityOf`.
- The "Manual Vibe Check" button and its one-second `time.sleep` spinner (bus_tracker.py:98-101) are timing and UI with no decision logic.
- The data-source health dictionary (bus_tracker.py:91-96) and the `conf-50` delta text of the metric (bus_tracker.py:76) are display formatting.
- The fixed map coordinates (bus_tracker.py:86) are floating-point literals used only for display.
- The `BusTruthAgent` class has no fields, so `EvaluateLocation` is a module-level function rather than a method of an object.
