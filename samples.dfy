/**
  The three sample packages of the driver in homework.py, read and
  summarised, plus the failures `read_package` raises for a bad package.
*/
module HomeworkSamples {
  import opened Wrappers
  import opened Homework

  /** ('SWM', [720, 1, 80, 25, 40]): 0.9936 km by strokes, 1 km/h over the pool, 336 kcal. */
  lemma SwimmingSample()
    ensures ReadPackage("SWM", [720.0, 1.0, 80.0, 25.0, 40.0])
      == Success(Swimming(720.0, 1.0, 80.0, 25.0, 40.0))
    ensures ShowTrainingInfo(Swimming(720.0, 1.0, 80.0, 25.0, 40.0))
      == Success(InfoMessage("Swimming", 1.0, 0.9936, 1.0, 336.0))
  {
  }

  /** ('RUN', [15000, 1, 75]): 9.75 km at 9.75 km/h, 699.75 kcal. */
  lemma RunningSample()
    ensures ReadPackage("RUN", [15000.0, 1.0, 75.0]) == Success(Running(15000.0, 1.0, 75.0))
    ensures ShowTrainingInfo(Running(15000.0, 1.0, 75.0))
      == Success(InfoMessage("Running", 1.0, 9.75, 9.75, 699.75))
  {
  }

  /** ('WLK', [9000, 1, 75, 180]): 5.85 km at 5.85 km/h; 5.85 ** 2 // 180 is 0, so 157.5 kcal. */
  lemma WalkingSample()
    ensures ReadPackage("WLK", [9000.0, 1.0, 75.0, 180.0])
      == Success(SportsWalking(9000.0, 1.0, 75.0, 180.0))
    ensures ShowTrainingInfo(SportsWalking(9000.0, 1.0, 75.0, 180.0))
      == Success(InfoMessage("SportsWalking", 1.0, 5.85, 5.85, 157.5))
  {
    WalkingSlowCalories(SportsWalking(9000.0, 1.0, 75.0, 180.0));
  }

  /** An unknown code, or a list of the wrong length for a known one, yields no training. */
  lemma BadPackages()
    ensures ReadPackage("XYZ", [15000.0, 1.0, 75.0]) == Failure(UnsupportedActivity("XYZ"))
    ensures ReadPackage("RUN", [15000.0, 1.0]) == Failure(WrongArgumentCount(3, 2))
    ensures ReadPackage("SWM", [720.0, 1.0, 80.0, 25.0]) == Failure(WrongArgumentCount(5, 4))
  {
  }

  /** A zero duration raises instead of producing a summary. */
  lemma ZeroDurationSample()
    ensures ShowTrainingInfo(Running(15000.0, 0.0, 75.0)) == Failure(ZeroDivision)
  {
  }
}
