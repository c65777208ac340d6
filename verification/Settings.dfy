/** Application settings, restricted to the values that configuration parsing accepts. */
module Configuration {
  datatype SettingsRecord = SettingsRecord(
    symbols: seq<string>,
    defaultTimeframe: string,
    startingBalance: real,
    backtestStartingBalance: real,
    riskPerTrade: real,
    maxDailyLoss: real,
    maxOpenPositions: nat,
    emaFastPeriod: nat,
    emaSlowPeriod: nat,
    rsiPeriod: nat,
    atrPeriod: nat,
    volumeMaPeriod: nat,
    signalMinScore: int,
    rsiLongMin: real,
    rsiLongMax: real,
    rsiShortMin: real,
    rsiShortMax: real,
    minVwapDistanceBps: real,
    minEmaSeparationBps: real,
    minVolumeRatio: real,
    minAtrBps: real,
    maxAtrBps: real,
    atrStopMultiplier: real,
    targetRr: real,
    minRr: real,
    minStopDistanceBps: real,
    maxStopDistanceBps: real,
    maxPositionNotionalMultiplier: real,
    maxSignalAgeSeconds: int,
    estimatedFeeBps: real,
    estimatedSlippageBps: real,
    paperFeeBps: real,
    entrySlippageBps: real,
    exitSlippageBps: real,
    maxPaperTradeHistory: nat,
    maxBacktestDays: int,
    minEvaluationTrades: nat,
    maxAcceptableDrawdownPercent: real,
    minAcceptableProfitFactor: real,
    maxOptimizationCombinations: nat
  ) {
    predicate Valid() {
      && startingBalance > 0.0 && backtestStartingBalance > 0.0
      && 0.0 < riskPerTrade <= 1.0 && 0.0 < maxDailyLoss <= 1.0
      && maxOpenPositions > 0
      && 0 < emaFastPeriod < emaSlowPeriod
      && rsiPeriod > 0 && atrPeriod > 0 && volumeMaPeriod > 0
      && 0 <= signalMinScore <= 100
      && 0.0 <= rsiLongMin < rsiLongMax <= 100.0
      && 0.0 <= rsiShortMin < rsiShortMax <= 100.0
      && minVwapDistanceBps >= 0.0 && minEmaSeparationBps >= 0.0 && minVolumeRatio > 0.0
      && 0.0 <= minAtrBps <= maxAtrBps && maxAtrBps > 0.0
      && atrStopMultiplier > 0.0 && targetRr > 0.0 && minRr > 0.0
      && 0.0 < minStopDistanceBps < maxStopDistanceBps
      && maxPositionNotionalMultiplier > 0.0
      && maxSignalAgeSeconds > 0
      && estimatedFeeBps >= 0.0 && estimatedSlippageBps >= 0.0
      && paperFeeBps >= 0.0 && entrySlippageBps >= 0.0 && exitSlippageBps >= 0.0
      && maxPaperTradeHistory > 0
      && maxBacktestDays > 0 && minEvaluationTrades > 0
      && 0.0 < maxAcceptableDrawdownPercent <= 100.0
      && minAcceptableProfitFactor > 0.0
      && maxOptimizationCombinations > 0
    }
  }

  /** The values used when nothing is configured. */
  const DEFAULTS := SettingsRecord(
    ["BTCUSDT", "ETHUSDT", "SOLUSDT"], "1m", 100.0, 100.0, 0.005, 0.03, 1,
    9, 21, 14, 14, 20, 70, 52.0, 68.0, 32.0, 48.0, 3.0, 2.0, 1.0, 5.0, 150.0,
    1.5, 1.5, 1.5, 5.0, 100.0, 1.0, 90, 10.0, 2.0, 10.0, 2.0, 2.0, 1000, 90,
    30, 20.0, 1.0, 500)

  type Settings = s: SettingsRecord | s.Valid() witness DEFAULTS
}
