/**
 * The race overview card: the status chip's colour and text, the weekend
 * chip, the action button's text, variant and disabled state, and when the
 * edit hint and the points panel show.
 */
module RaceOverview {
  import opened Wrappers
  import opened Db

  datatype ChipColor = SuccessColor | WarningColor | DefaultColor | DangerColor | SecondaryColor

  datatype ButtonVariant = Solid | Bordered | Flat

  /** The fields of the user's prediction the card reads. */
  datatype PredictionView = PredictionView(totalPoints: Option<int>)

  /** What the card shows. */
  datatype Card = Card(
    statusColor: ChipColor,
    statusText: string,
    weekendColor: ChipColor,
    weekendText: string,
    buttonText: string,
    buttonVariant: ButtonVariant,
    disabled: bool,
    editHint: bool,
    points: Option<int>)

  /** `getStatusColor`. */
  function StatusColor(status: string): ChipColor {
    if status == Completed then SuccessColor
    else if status == Live then WarningColor
    else DefaultColor
  }

  /** `getStatusText`. */
  function StatusText(status: string): string {
    if status == Completed then "Completed"
    else if status == Live then "LIVE"
    else if status == Upcoming then "Upcoming"
    else status
  }

  /** `getButtonText`. */
  function ButtonText(status: string, prediction: Option<PredictionView>): string {
    if status == Completed then "Finished"
    else if status == Live then "Predictions Closed"
    else if prediction.Some? then "Edit Prediction"
    else "Create Prediction"
  }

  /** `getButtonVariant`. */
  function Variant(status: string, prediction: Option<PredictionView>): ButtonVariant {
    if status == Completed || status == Live then Flat
    else if prediction.Some? then Bordered
    else Solid
  }

  /** `isDisabled`. */
  predicate IsDisabled(status: string) {
    status == Completed || status == Live
  }

  /** The card for a race and the user's prediction, if any. */
  function Overview(race: Race, prediction: Option<PredictionView>): Card {
    Card(StatusColor(race.status), StatusText(race.status),
         if race.hasSprint then DangerColor else SecondaryColor,
         if race.hasSprint then "Sprint Weekend" else "Regular Weekend",
         ButtonText(race.status, prediction), Variant(race.status, prediction), IsDisabled(race.status),
         prediction.Some? && race.status == Upcoming,
         if prediction.Some? && prediction.value.totalPoints.Some? && race.status == Completed
         then prediction.value.totalPoints else None)
  }

  /**
   * The chip: a finished race is green, a live one amber, any other status
   * neutral; the three statuses get their labels and any other status is
   * shown as it is.
   */
  lemma StatusChip(status: string)
    ensures StatusColor(status) == SuccessColor <==> status == Completed
    ensures StatusColor(status) == WarningColor <==> status == Live
    ensures StatusColor(status) == DefaultColor <==> status != Completed && status != Live
    ensures status != Completed && status != Live && status != Upcoming ==> StatusText(status) == status
    ensures status == Upcoming ==> StatusText(status) == "Upcoming"
  {
  }

  /**
   * The button's text, variant and disabled state agree: a finished or live
   * race shows a flat, disabled button whatever the prediction, the finish
   * taking precedence; otherwise the button is enabled, bordered with
   * "Edit Prediction" when there is a prediction, solid with "Create
   * Prediction" when there is none.
   */
  lemma ButtonAgrees(race: Race, prediction: Option<PredictionView>)
    ensures var c := Overview(race, prediction);
      && (c.disabled <==> c.buttonVariant == Flat)
      && (c.disabled <==> c.buttonText == "Finished" || c.buttonText == "Predictions Closed")
      && (c.buttonText == "Finished" <==> race.status == Completed)
      && (!c.disabled ==> (c.buttonVariant == Bordered <==> prediction.Some?))
      && (!c.disabled ==> (c.buttonText == "Edit Prediction" <==> prediction.Some?))
      && (c.buttonVariant == Solid <==> c.buttonText == "Create Prediction")
  {
  }

  /**
   * The edit hint shows only beside an enabled "Edit Prediction" button,
   * and the points panel only beside a disabled "Finished" one, with the
   * prediction's points.
   */
  lemma PanelsAgree(race: Race, prediction: Option<PredictionView>)
    ensures var c := Overview(race, prediction);
      && (c.editHint <==> prediction.Some? && race.status == Upcoming)
      && (c.editHint ==> !c.disabled && c.buttonText == "Edit Prediction")
      && (c.points.Some? <==> prediction.Some? && prediction.value.totalPoints.Some? && race.status == Completed)
      && (c.points.Some? ==> c.disabled && c.buttonText == "Finished" && c.points == prediction.value.totalPoints)
      && !(c.editHint && c.points.Some?)
  {
  }
}
