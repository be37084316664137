# Flood-risk tiers and air-conditioner emissions

This project models the two computations in the climate dashboard page
`streamlit_app.py`. Everything else on the page is rendering.

- **Flood-risk map** (`RiskClassifier`, `FloodMap`). Five coastal regions
  each have a fixed base risk in centimetres: 부산 120, 인천 100, 제주 80,
  여수 90 and 서울 50. A slider adds a sea-level rise of 0 to 200 cm in steps
  of 10. `risk_color` maps each region's total to a marker colour. It tests
  the thresholds 200, 150, 100 and 50 from the top, so a value on a boundary
  gets the higher tier. The tiers are a datatype `Tier` (Safe, Caution,
  Warning, Danger, Severe), named as in the map legend. Each tier has its
  colour (`blue`, `lightblue`, `orange`, `orangered`, `darkred`) and its band
  of values between the thresholds `risk_color` tests, lower bound inclusive.
  The legend (lines 142-146) names each boundary twice and does not say which
  side is inclusive; the inclusive lower bounds come from the comparisons at
  lines 109-118. The legend's safe band starts at 0, while the code's final
  `else` also sends negative values to blue.
- **Air-conditioner calculator** (`EnergyEstimator`). `energy = hours * days * 0.8`
  kWh and `co2 = round(energy * 0.424, 2)` kg. The model uses exact integers in
  scaled units. Energy is in tenths of a kWh (`hours * days * 8`). The exact
  CO2 amount is in ten-thousandths of a kg (`energy * 424`). The rounded CO2
  amount is in hundredths of a kg. Rounding follows Python's `round`, which
  sends a tie to the even neighbour. The model proves that a tie never occurs:
  the exact amount is always a multiple of 4 ten-thousandths. So the computed
  `co2` value (line 79) is always strictly within 0.005 kg of the exact
  product. The page then prints it with one decimal (line 84).

Facts about the code the model relies on:
- Risk values are integers: the base risks (lines 99-105) and the sea-level slider (line 96) are integers.
- The days slider runs from 1 to 90 (line 76).
- Negative risk values fall to `blue` through the final `else` branch (lines 117-118). The model does not clamp them.

## Model

| member | source | states |
|---|---|---|
| RiskClassifier.Classify | streamlit_app.py:108-118 | the tier returned is the one whose threshold band holds the risk value, for every integer, negatives included |
| RiskClassifier.RiskColor | streamlit_app.py:108-118 | the colour is always one of the five palette colours, and it is the one at the position of the value's tier |
| RiskClassifier.CoversUnique | streamlit_app.py:109-118 | the threshold bands partition the integers: a value lies in a tier's band exactly when that tier is the one `risk_color` chooses |
| RiskClassifier.BoundaryTiers | streamlit_app.py:109-118 | 200, 150, 100 and 50 belong to the higher tier, 199, 149, 99 and 49 to the lower one, and every value below 50 is blue |
| RiskClassifier.ClassifyMonotone | streamlit_app.py:108-118 | a larger risk value never gets a less severe tier |
| RiskClassifier.RankCountsThresholds | streamlit_app.py:108-118 | the tier's rank equals the number of thresholds (50, 100, 150, 200) that the value reaches |
| RiskClassifier.ColorsDistinct | streamlit_app.py:108-118 | distinct tiers have distinct colours, so a marker's colour identifies its tier |
| FloodMap.TotalRisk | streamlit_app.py:124 | the total risk is the base risk plus the sea-level rise; over the slider's range it lies between the base risk and 200 cm above it |
| FloodMap.MarkerTier | streamlit_app.py:123-131 | a region's marker tier is the tier whose band holds base risk plus sea-level rise |
| FloodMap.MarkerTiers | streamlit_app.py:123-133 | one tier per region, in table order, each covering that region's total risk |
| FloodMap.BaseRisks | streamlit_app.py:99-105 | every base risk in the region table is one of 50, 80, 90, 100 and 120 |
| FloodMap.TotalRiskRange | streamlit_app.py:96-124 | for every region and every slider value (0 to 200 in steps of 10), the total risk lies in [50, 320] |
| FloodMap.NoRegionSafe | streamlit_app.py:96-124 | for every slider value, no region's marker is drawn in the safe tier or in blue |
| FloodMap.SeaLevelRaisesTier | streamlit_app.py:124 | raising the sea level never lowers a region's tier |
| FloodMap.BusanExample | streamlit_app.py:100 | 부산 under a 100 cm rise totals 220 cm and is drawn dark red |
| FloodMap.DefaultMap | streamlit_app.py:96-124 | at the default rise of 100 cm the tiers are severe, severe, danger, danger, danger |
| EnergyEstimator.EnergyTenths | streamlit_app.py:78 | energy is a whole number of hours' draw, and it is zero exactly when hours or days is zero |
| EnergyEstimator.Co2Exact | streamlit_app.py:79 | the unrounded `energy * 0.424`, in ten-thousandths of a kg, is a multiple of 8 of those units and is zero exactly when energy is zero |
| EnergyEstimator.RoundHundredths | streamlit_app.py:79 | the rounded figure is within half a hundredth of the exact value, and a tie goes to the even neighbour |
| EnergyEstimator.Estimated | streamlit_app.py:78-79 | energy is zero exactly when hours or days is zero, and the CO2 figure is strictly within 0.005 kg of energy times 0.424 |
| EnergyEstimator.RoundIsNearest | streamlit_app.py:79 | no multiple of a hundredth is closer to the exact value than the rounded figure |
| EnergyEstimator.RoundMonotone | streamlit_app.py:79 | rounding never reverses the order of two amounts |
| EnergyEstimator.NeverATie | streamlit_app.py:78-79 | the exact CO2 amount of any energy amount never ends in exactly half a hundredth, so the rounding rule for ties never applies |
| EnergyEstimator.EnergyBounded | streamlit_app.py:74-78 | over the slider ranges, energy is at most 1728 kWh |
| EnergyEstimator.EnergyMonotone | streamlit_app.py:78 | more hours or more days never use less energy |
| EnergyEstimator.EnergyZeroIff | streamlit_app.py:76-78 | with at least one day, as the days slider guarantees, energy is zero exactly when hours is zero |
| EnergyEstimator.Co2Monotone | streamlit_app.py:78-79 | more hours or more days never give a smaller rounded CO2 figure |
| EnergyEstimator.Co2Bounded | streamlit_app.py:74-79 | over the slider ranges, CO2 is at most 732.67 kg |
| EnergyEstimator.NoUseNoEmission | streamlit_app.py:78-79 | zero hours gives 0 kWh and 0 kg for any number of days |
| EnergyEstimator.Examples | streamlit_app.py:78-79 | 6 h over 30 days gives 144.0 kWh and 61.06 kg (exactly 61.056), and 8 h over 30 days gives 192.0 kWh and 81.41 kg (exactly 81.408) |

## Left out

- Binary floating point: `0.8`, `0.424` and `round` work on floats in the code. The model uses exact decimal arithmetic on scaled integers, so float representation artefacts are not captured.
- Output formatting: the page prints both figures with one decimal (`:.1f`). This is presentation and is not modelled.
- Widgets: the three sliders are not modelled. Their ranges appear as the predicates `ValidHours`, `ValidDays` and `ValidSeaLevel`, used as preconditions of the lemmas that depend on them.
- The map itself: the folium map, the marker radius, popup and opacity, the legend HTML and its rendering are calls into mapping and UI libraries. Only the tier and colour computed for each marker are modelled. The regions' coordinates are kept as data but not used.
- The sea-level chart: the hardcoded yearly series, its data frame and its plotly chart are fixture data given to a charting library.
- Page setup, titles and narrative markdown are presentation only.
