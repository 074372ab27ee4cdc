# GTrader Fann strategy — a verified model

This project models the FANN-backed trading strategy of GTrader
(`app/GTrader/Strategies/Fann.php`) in Dafny. The network maths and the
database are left abstract. The bookkeeping around them is modelled and proved:

- **Sample windower.** `resetSample`/`nextSample` slide a window of
  `num_samples + target_distance` candles over the candle series. They use a
  cursor (`_sample_iterator`) and a FIFO buffer that is function-static, so
  every strategy object shares it.
- **Feature encoder and dataset cache.** `candlesToData` turns each window into
  an `{input, output}` example:
  - the OHLC of the first `num_samples - 1` candles, then the open of the last input candle;
  - when `use_volume` is set, the `intval`'d volumes of the same candles, placed first;
  - each block min-max normalised with `Series::normalize`;
  - one target: the percentage move of ohlc4 from the last input candle to the
    window's last candle, divided by `output_scaling` and clamped to [-1, 1].

  Datasets are cached by name.
- **Topology arithmetic.** `getNumInput`, `getNumLayers`, the argument list
  `createFann` hands to `fann_create_shortcut`, and the `max_neurons` clamp of
  cascade training.
- **Handle lifecycle.**
  - `loadOrCreateFann` refuses a second acquisition. It tries the suffixed
    file, then the plain file, then creates a network, and initialises the result.
  - `loadFann`, `createFann`/`reset`, `initFann`, `getFann`, `setFann` and
    `destroyFann` are modelled too.
- **Bias cache and `run`.** `getBias` computes the zero-input output once and
  caches it. `run` subtracts the bias unless told not to, and returns null
  when no network can be had.
- **Training feed.** `train`/`test` arm the `createCallback` cursor.
  `fann_create_train_from_callback` then pulls the whole dataset through it,
  in order.
- **History store.** `saveHistory`, `deleteHistory`, `getHistoryNumRecords`,
  `getLastTrainingEpoch` and the every-nth-epoch `pruneHistory`. They work over
  an in-memory `fann_history` table.
- **Save request.** The normalisation part of `handleSaveRequest`, with its
  detection of a topology change.

Modules:
- `Outcomes`: `Option`, `Result` and the exceptions as values.
- `Config`: parameters and topology arithmetic.
- `Network`: the handle as a value, and the FANN calls as supplied functions.
- `Encoding`: the encoder, specified by functions and implemented by the loop methods.
- `Windowing`: `nextSample` in closed form, and the dataset a full pass yields.
- `History`: the table and its queries.
- `SaveRequest`: the save-request normalisation.
- `Strategies`: the `Fann` class, whose methods change its fields, the shared
  sample buffer and the history table.

Behaviour of the code that is easy to misread, kept as written:
- **Which candles feed the encoder.** Only the first `num_samples` candles of a
  window are read for the input. The target is read from the window's last
  candle only; the candles between the last input candle and it are not read.
  The volume block is placed before the price block, and
  `last_ohlc4` is taken from candle `num_samples - 1`, not from the window's
  last candle.
- **Pruning order.** The distinct-epoch query of `pruneHistory` has no
  `orderBy`, so the model takes the listing the database returns as a
  parameter. `History.PruneRow` holds for any such listing, and
  `History.PruneSixEpochs` works through the ascending listing of epochs 1..6
  with nth = 2.
- **When the bias cache is cleared.** Only `initFann` and `train` clear
  `_bias`; `reset()` leaves it alone. `Strategies.Fann.ResetWeights` and
  `Strategies.Fann.CreateFann` therefore do not touch `bias`.
- **What `pruneHistory` and `deleteHistory` return.** Both return `$this` and
  only log the number of rows deleted. The model's methods return that number.

## Model

| member | source | states |
|---|---|---|
| Config.Fields | app/GTrader/Strategies/Fann.php:841-849 | each full input candle contributes 4 values, or 5 exactly when `use_volume` is truthy |
| Config.NumLayers | app/GTrader/Strategies/Fann.php:852-861 | an unknown `fann_type` is an "Unknown fann type" error, and only an unknown type is |
| Config.CreateArgsMatchLayers | app/GTrader/Strategies/Fann.php:316-340 | the layer count createFann passes is getNumLayers(); the sizes that follow number exactly that many (input width, the hidden sizes for fixed, output width; three for cascade); both fail together on an unknown type |
| Config.NumInput | app/GTrader/Strategies/Fann.php:841-849 | the input width is 4(n-1)+1 price values plus n-1 volumes when `use_volume` is truthy, and at least 1 |
| Config.CreateArgs | app/GTrader/Strategies/Fann.php:316-340 | createFann has an argument list exactly for a known `fann_type` |
| Config.MaxNeurons | app/GTrader/Strategies/Fann.php:757-763 | the cascade neuron cap (a PHP float) lies in [1, 1000]; it is max_epochs/10 inside that range and the nearer bound outside |
| Config.NeuronCap | app/GTrader/Strategies/Fann.php:757-783 | the integer `fann_cascadetrain_on_data` receives is the float cap truncated: in [1, 1000], within 1 below the float, and max_epochs div 10 for max_epochs in [10, 10009] |
| Config.MaxNeuronsMonotonic | app/GTrader/Strategies/Fann.php:757-763 | more epochs never give a lower neuron cap |
| Network.Created | app/GTrader/Strategies/Fann.php:316-347 | a new network exists exactly for a known type; it is a shortcut network built from CreateArgs, its weights drawn from [-0.77, 0.77] |
| Network.Init | app/GTrader/Strategies/Fann.php:350-375 | after initFann the hidden activation is symmetric sigmoid, the output activation symmetric Gaussian, the error function tanh, and RPROP is set for fixed networks only; the network and its weights are kept |
| Network.Acquire | app/GTrader/Strategies/Fann.php:280-302 | whatever loadOrCreateFann ends holding has initFann applied |
| Network.AcquireOrder | app/GTrader/Strategies/Fann.php:280-313 | acquisition fails only for an unknown type with no loadable file; a loadable suffixed file wins over the plain file, which wins over a freshly created network |
| Network.Zeros | app/GTrader/Strategies/Fann.php:562 | getBias's input holds getNumInput() zeros |
| Encoding.IntValTruncates | app/GTrader/Strategies/Fann.php:630 | intval keeps the integer part of a volume: toward zero, by less than 1 |
| Encoding.Ohlc | app/GTrader/Strategies/Fann.php:634-640 | the OHLC block of n candles has 4n values |
| Encoding.OhlcAt | app/GTrader/Strategies/Fann.php:634-640 | candle i's open, high, low and close sit at positions 4i..4i+3, in that order |
| Encoding.Volumes | app/GTrader/Strategies/Fann.php:627-632 | the volume block of n candles has n values |
| Encoding.VolumesAt | app/GTrader/Strategies/Fann.php:627-632 | volume i is candle i's volume, intval'd |
| Encoding.SeqMinIsLeast | app/GTrader/Strategies/Fann.php:680 | min() of a block is one of its values and no value is below it |
| Encoding.SeqMaxIsGreatest | app/GTrader/Strategies/Fann.php:681 | max() of a block is one of its values and no value is above it |
| Encoding.ClampRange | app/GTrader/Strategies/Fann.php:688-692 | the target lands in [-1, 1]; values inside are kept and the rest are cut to the nearer end |
| Encoding.TargetOutput | app/GTrader/Strategies/Fann.php:685-692 | the target output always lies in [-1, 1] |
| Encoding.Encode | app/GTrader/Strategies/Fann.php:626-698 | an encoded example has exactly one output, in [-1, 1] (its input layout: Encoding.EncodeShape) |
| Encoding.RawInput | app/GTrader/Strategies/Fann.php:633-645 | the raw price input has 4(n-1)+1 values |
| Encoding.EncodeShape | app/GTrader/Strategies/Fann.php:626-698 | every example has (n-1)*fields+1 inputs, the normalised volumes (when used) ahead of the normalised price block, and exactly one output, in [-1, 1] |
| Encoding.PriceInputAt | app/GTrader/Strategies/Fann.php:633-684 | in the normalised price block, candle i < n-1 gives its normalised O, H, L, C at 4i..4i+3 and the last input candle its normalised open, normalised with the block's own min and max |
| Encoding.MinMaxRange | app/GTrader/Strategies/Fann.php:679-684 | with min-max normalisation to [-1, 1] and a non-degenerate range, a normalised block stays in [-1, 1] and reaches both -1 and 1 |
| Encoding.NormalizeEach | app/GTrader/Strategies/Fann.php:682-684 | the in-place foreach leaves every value normalised with the same bounds, in place |
| Encoding.CollectVolumes | app/GTrader/Strategies/Fann.php:627-632 | the volume loop collects the intval'd volumes of the first n-1 candles |
| Encoding.CollectPrices | app/GTrader/Strategies/Fann.php:633-645 | the price loop collects OHLC of the first n-1 candles then the open of candle n-1, and takes that candle's ohlc4 |
| Encoding.EncodeWindow | app/GTrader/Strategies/Fann.php:626-698 | the loop body of candlesToData computes exactly the specified example of its window |
| Windowing.Advance | app/GTrader/Strategies/Fann.php:576-611 | an empty source gives null and changes nothing; a returned window is the new buffer, of exactly the window size when the buffer was not over-full; the cursor never moves back nor past the end (window order: Windowing.AdvanceWindow, Windowing.WindowsInOrder) |
| Windowing.AdvanceFills | app/GTrader/Strategies/Fann.php:595-604 | a call that fills a short buffer to the window size returns the filled buffer |
| Windowing.AdvanceSlides | app/GTrader/Strategies/Fann.php:595-608 | a call on a full buffer pushes one candle, drops the oldest and returns the buffer |
| Windowing.AdvanceRunsOut | app/GTrader/Strategies/Fann.php:595-610 | a call that runs out of candles pushes all that remain and returns null |
| Windowing.AdvanceFilling | app/GTrader/Strategies/Fann.php:595-604 | from a pass's start the first call returns candles[0..w] |
| Windowing.AdvanceShort | app/GTrader/Strategies/Fann.php:595-610 | a source shorter than a window yields null, with every candle buffered |
| Windowing.AdvanceSliding | app/GTrader/Strategies/Fann.php:605-608 | with a full buffer and a candle left, the window slides by one |
| Windowing.AdvanceAtEnd | app/GTrader/Strategies/Fann.php:595-610 | at the end of the source a call returns null and changes nothing |
| Windowing.AdvanceWindow | app/GTrader/Strategies/Fann.php:576-611 | from a consistent state a call returns the w candles ending at max(iterator+1, w) when they exist and null otherwise; the buffer stays the last min(iterator, w) candles, so it never holds more than w |
| Windowing.ReplayFrom | app/GTrader/Strategies/Fann.php:595-611 | after j calls of a pass, the next m calls return the windows at j, j+1, ... in order |
| Windowing.WindowsInOrder | app/GTrader/Strategies/Fann.php:568-611 | after resetSample the k-th nextSample call returns candles[k..k+w] for k = 0..N-w, and null for every later call |
| Windowing.WindowsAt | app/GTrader/Strategies/Fann.php:626 | the k-th window of a pass is candles[k..k+w] |
| Windowing.PassWindowLength | app/GTrader/Strategies/Fann.php:602-607 | every window a pass returns holds exactly w candles |
| Windowing.PassWindowAt | app/GTrader/Strategies/Fann.php:626 | the windows of a pass are the ones nextSample returns |
| Windowing.PassStepAt | app/GTrader/Strategies/Fann.php:626 | after j calls, the next call returns the window at j and leaves the state j+1 calls leave |
| Windowing.PassStep | app/GTrader/Strategies/Fann.php:626 | the same step, stated over the list of a pass's windows |
| Windowing.PassEnd | app/GTrader/Strategies/Fann.php:626 | once a call has returned null, every window has been seen and the cursor is at the end of the candles |
| Windowing.WindowsEncodable | app/GTrader/Strategies/Fann.php:644-687 | every window of a source with non-zero ohlc4 and scaling can be encoded without dividing by zero |
| Windowing.EncodeAll | app/GTrader/Strategies/Fann.php:626-698 | one example per window |
| Windowing.Dataset | app/GTrader/Strategies/Fann.php:614-714 | the dataset holds one example per window, N-w+1 of them (none for a source shorter than a window) |
| Windowing.DatasetWindow | app/GTrader/Strategies/Fann.php:626-698 | the dataset's k-th example encodes the pass's k-th window |
| Windowing.DatasetAt | app/GTrader/Strategies/Fann.php:626-712 | the dataset's k-th example encodes candles[k..k+w], in the order nextSample yields them |
| History.Count | app/GTrader/Strategies/Fann.php:459-464 | a strategy's row count never exceeds the table size |
| History.CountAppend | app/GTrader/Strategies/Fann.php:446-456 | an inserted row counts for its own strategy only |
| History.CountPositive | app/GTrader/Strategies/Fann.php:459-464 | the count is positive exactly when the strategy has a row |
| History.RemoveStrategy | app/GTrader/Strategies/Fann.php:436-443 | deleting a strategy's rows keeps exactly the other strategies' rows, removes as many rows as the strategy had, and leaves it none |
| History.RemoveStrategyCopies | app/GTrader/Strategies/Fann.php:436-443 | every row not of the strategy keeps all its copies and every row of it loses all of them |
| History.RemoveEpochs | app/GTrader/Strategies/Fann.php:481-484 | the delete keeps exactly the rows not of this strategy in the chosen epochs |
| History.RemoveEpochsCopies | app/GTrader/Strategies/Fann.php:481-484 | a row of this strategy in a chosen epoch loses all its copies; every other row keeps all of them |
| History.RemoveNothing | app/GTrader/Strategies/Fann.php:477-478 | deleting no epochs keeps the table as it is |
| History.RemoveEpochsTwice | app/GTrader/Strategies/Fann.php:479-490 | successive per-epoch deletes amount to one delete of their union |
| History.LastEpoch | app/GTrader/Strategies/Fann.php:496-505 | the last training epoch is the highest epoch among the strategy's rows and one of them; 0 when it has none |
| History.CyclicCountIsPosition | app/GTrader/Strategies/Fann.php:477-490 | the cycling counter at the i-th epoch is i mod nth + 1 |
| History.PrunedEpochsAt | app/GTrader/Strategies/Fann.php:477-490 | an epoch is deleted exactly when it is listed at a 1-based position divisible by nth |
| History.PruneByPosition | app/GTrader/Strategies/Fann.php:467-493 | with each epoch listed once, the listed epoch at position j is deleted exactly when j+1 is divisible by nth |
| History.PruneRow | app/GTrader/Strategies/Fann.php:467-493 | rows of other strategies survive pruning; a row of the strategy survives exactly when its epoch's 1-based position is not divisible by nth |
| History.PruneSixEpochs | app/GTrader/Strategies/Fann.php:467-493 | epochs 1..6 pruned with nth = 2 lose 2, 4 and 6 and keep 1, 3 and 5 |
| SaveRequest.PositiveLayers | app/GTrader/Strategies/Fann.php:165-174 | the saved hidden list holds exactly the requested entries that are positive; a list of positive sizes is kept as it is, and a single entry is kept exactly when positive |
| SaveRequest.PositiveLayersAppend | app/GTrader/Strategies/Fann.php:165-174 | filtering a concatenation is filtering each part and concatenating, so order and repeats are kept |
| SaveRequest.KeepPositive | app/GTrader/Strategies/Fann.php:166-174 | the filtering loop keeps the positive entries, in order |
| SaveRequest.AtLeastTwo | app/GTrader/Strategies/Fann.php:184-188 | num_samples is raised to exactly 2 when below 2, otherwise kept, so the result is at least 2 |
| SaveRequest.VolumeFlag | app/GTrader/Strategies/Fann.php:195-200 | use_volume is saved as 1 exactly when the request sets it non-zero, else 0 |
| SaveRequest.SavedParams | app/GTrader/Strategies/Fann.php:161-216 | a save keeps id, path, type, output width, scaling and bias compensation, saves use_volume as 0 or 1, and adds only positive hidden sizes |
| SaveRequest.SavedSamples | app/GTrader/Strategies/Fann.php:183-193 | a request that sets num_samples leaves at least 2; otherwise num_samples is kept |
| SaveRequest.TopologyChanged | app/GTrader/Strategies/Fann.php:163-203 | only a request that sets the hidden layers or num_samples, or whose use_volume flag differs, changes the topology; a request without use_volume turns volume off, a change when it was on |
| SaveRequest.TopologyChangedExactly | app/GTrader/Strategies/Fann.php:163-203 | the topology counts as changed exactly when the hidden layers, num_samples or use_volume get a new value |
| SaveRequest.UnchangedTopologyKeepsShape | app/GTrader/Strategies/Fann.php:176-210 | a save that keeps the topology keeps getNumInput, getNumLayers and the createFann arguments, so the held network still fits |
| Strategies.Entry | app/GTrader/Strategies/Fann.php:808-810 | the callback answers an example exactly when the cursor's entry exists, false otherwise |
| Strategies.ArmedFeed | app/GTrader/Strategies/Fann.php:743-748 | a freshly armed feed over a dataset yields every example, in order |
| Strategies.ExampleFitsNetwork | app/GTrader/Strategies/Fann.php:743-748 | every stored example has getNumInput() inputs and one output in [-1, 1], the sizes the training data is created with |
| Strategies.SampleBuffer.constructor | app/GTrader/Strategies/Fann.php:578 | the shared sample buffer starts empty |
| Strategies.Fann.constructor | app/GTrader/Strategies/Fann.php:32-37 | a strategy starts with num_output 1, no network, no data, both cursors at 0 and no bias |
| Strategies.Fann.ResetSample | app/GTrader/Strategies/Fann.php:568-573 | the cursor goes to 0 and the shared buffer is emptied |
| Strategies.Fann.NextSample | app/GTrader/Strategies/Fann.php:576-611 | one call changes the cursor and buffer and returns exactly what the closed-form step Advance gives, including null at once for an empty source |
| Strategies.Fann.CandlesToData | app/GTrader/Strategies/Fann.php:614-714 | a cached dataset is kept untouched unless forced (`force` defaults to false); otherwise the dataset of every window in order is stored under the name and the cursor ends at the end of the candles |
| Strategies.Fann.NextWindow | app/GTrader/Strategies/Fann.php:626 | within a pass, call j returns the window at j |
| Strategies.Fann.EncodeAllWindows | app/GTrader/Strategies/Fann.php:620-712 | the loop of candlesToData builds exactly the dataset: one example per window, in order |
| Strategies.Fann.AppendExample | app/GTrader/Strategies/Fann.php:626-698 | one loop iteration extends the examples built so far by the next window's example |
| Strategies.Fann.CreateCallback | app/GTrader/Strategies/Fann.php:798-811 | without a callback type an error and no change; otherwise the cursor advances by one and the entry it passed over is returned |
| Strategies.Fann.CreateTrainFromCallback | app/GTrader/Strategies/Fann.php:743-748 | count callback calls advance the cursor by count and collect the entries in order; from an armed cursor over a whole dataset, the dataset itself |
| Strategies.Fann.ArmFeed | app/GTrader/Strategies/Fann.php:740-748 | the named dataset is built or reused (a reuse leaves the sample cursor and buffer alone; a build leaves the cursor at the end and the buffer consistent with it), the callback is armed on it and the library receives the whole dataset in order |
| Strategies.Fann.LoadFann | app/GTrader/Strategies/Fann.php:305-313 | loading succeeds exactly for a readable file, which replaces the handle (no handle if the file does not parse); otherwise nothing changes |
| Strategies.Fann.ResetWeights | app/GTrader/Strategies/Fann.php:343-347 | the held network's weights are randomised in [-0.77, 0.77], and nothing else changes |
| Strategies.Fann.CreateFann | app/GTrader/Strategies/Fann.php:316-340 | a known type creates the shortcut network of the configured shape with random weights; an unknown type is an error and keeps the handle |
| Strategies.Fann.InitFann | app/GTrader/Strategies/Fann.php:350-375 | without a handle an error; otherwise the settings are applied and the bias cache is cleared |
| Strategies.Fann.LoadOrCreateFann | app/GTrader/Strategies/Fann.php:280-302 | `suffix` defaults to the empty string; a held handle is an error and is kept; otherwise the handle becomes what Acquire gives (suffixed file, plain file or new network, initialised) with the bias cleared, or the type error |
| Strategies.Fann.GetFann | app/GTrader/Strategies/Fann.php:378-384 | the held network, or the one acquired when none is held; it fails only with no handle, no loadable file and an unknown type |
| Strategies.Fann.SetFann | app/GTrader/Strategies/Fann.php:393-404 | a non-resource is refused with nothing changed; a resource is held, initialised, and the bias cleared |
| Strategies.Fann.DestroyFann | app/GTrader/Strategies/Fann.php:529-535 | afterwards no network is held, whether one was or not |
| Strategies.Fann.GetBias | app/GTrader/Strategies/Fann.php:554-565 | 0, with nothing touched, when compensation is off; the cached bias times the compensation when cached; otherwise the network held (or acquired, and then held) is run on zero input, its output cached and returned times the compensation; a failed acquisition leaves no handle and the cache as it was |
| Strategies.Fann.Run | app/GTrader/Strategies/Fann.php:538-551 | null exactly when no network can be had, leaving the bias cache alone; otherwise the network's output, less the compensated bias unless ignored (`ignoreBias` defaults to false) or compensation is off; a cached bias with a held network is kept, a newly acquired network drops the cache, and a bias computed here is the zero-input output of the network held |
| Strategies.Fann.Train | app/GTrader/Strategies/Fann.php:736-795 | the train dataset is built or reused and fed whole; `maxEpochs` defaults to 5000; fixed networks train with max_epochs, cascade ones with the truncated, clamped neuron cap, both at error 1e-7; the sample cursor and buffer are kept on reuse and left at the end on a build; the trained network is held, the bias cleared; an unknown type is an error before training |
| Strategies.Fann.Test | app/GTrader/Strategies/Fann.php:717-733 | the test dataset is built or reused and fed whole (sample cursor as for ArmFeed), and the result is the library's MSE of the network on it, which stays held (the bias cache kept unless the network was newly acquired), or the error of acquiring the network, with no handle and the cache kept |
| Strategies.Fann.SaveHistory | app/GTrader/Strategies/Fann.php:446-456 | one row for this strategy is appended, and its count grows by one |
| Strategies.Fann.DeleteHistory | app/GTrader/Strategies/Fann.php:436-443 | every row of this strategy goes, and the number affected is its old count |
| Strategies.Fann.GetHistoryNumRecords | app/GTrader/Strategies/Fann.php:459-464 | the strategy's row count, positive exactly when it has a row |
| Strategies.Fann.GetLastTrainingEpoch | app/GTrader/Strategies/Fann.php:496-505 | the highest epoch recorded for the strategy, or 0 when there is none |
| Strategies.Fann.PruneHistory | app/GTrader/Strategies/Fann.php:467-493 | nth defaults to 2, and below 2 counts as 2; the table becomes the old one without this strategy's rows in the epochs listed at positions divisible by nth; the result is the number of rows deleted |
| Strategies.Fann.HandleSaveRequest | app/GTrader/Strategies/Fann.php:161-216 | the parameters become the normalised ones; a change of topology destroys the held network and anything else keeps it |

## Left out

- The FANN library is not modelled beyond what the strategy observes: `fann_run`, `fann_train_on_data`, `fann_cascadetrain_on_data` and `fann_test_data` are functions supplied with the `Library` value; `fann_randomize_weights` is recorded as the range the weights are drawn from.
- Strategies.Fann.CreateTrainFromCallback models `fann_create_train_from_callback` as the loop that calls `createCallback` once per example; the library's copying of the answers into its own training structure is not modelled.
- Strategies.Fann.CreateFann: a failure of `fann_create_shortcut` itself is not modelled; a known type always yields a network.
- Strategies.Fann.DestroyFann: `fann_destroy`'s return value is not modelled; the method returns nothing.
- Strategies.Fann.Run catches the exceptions of `getFann` only; errors raised inside `fann_run` are not modelled.
- `Series::normalize` and `Series::ohlc4` are not part of this model: they are supplied functions (`SeriesMath`). `Encoding.MinMaxRange` states the range property for min-max normalisation to [-1, 1], the mapping the comment at `app/GTrader/Strategies/Fann.php:679` asks of it.
- Prices, volumes and all the percentage and normalisation arithmetic use exact reals; IEEE floating point (rounding, INF, NaN) is not modelled, nor PHP integer overflow in the topology arithmetic.
- Encoding.IntVal: `intval` on NaN, infinities and out-of-range floats is not modelled.
- Strategies.Fann.CandlesToData requires every candle's ohlc4 and `output_scaling` to be non-zero and `target_distance` to be non-negative; the source would divide by zero (or read past the window) instead. The same precondition is on `EncodeAllWindows`, `AppendExample`, `ArmFeed`, `Train` and `Test`.
- Strategies.Fann.constructor requires `num_samples >= 2`. A save that sets num_samples raises it to at least 2, but a save that leaves it out keeps the stored value, so the bound is an assumption about the stored parameters rather than something every save enforces. `GetBias`, `Run`, `Train` and `HandleSaveRequest` require it too (with `num_output == 1`), so that the all-zero bias input has a length.
- Strategies.Fann.NextSample always uses the window size `num_samples + target_distance`; the optional `$size` argument of `nextSample` (which replaces that size when given) is not modelled, as no caller in the strategy passes it.
- Strategies.Fann.DeleteHistory returns the number of rows affected, which the source only logs before returning `$this`.
- Strategies.Fann.PruneHistory takes the database's distinct-epoch answer as a parameter (each epoch of the strategy once, in the storage's order), and returns the deleted count the source only logs.
- The filesystem is two sets of paths (readable, and parsable by `fann_create_from_file`); `path()` with its mkdir/chmod, `saveFann`, `deleteFiles`, `copyFann` and `hasBeenTrained` are not modelled, nor the file deletion `handleSaveRequest` does after destroying the network.
- `getMSER` (a reciprocal of a library value), `delete` (Eloquent deletes of trainings), `getNumSamples`/`setNumSamples` (plain parameter accessors, folded into `Params`), `time()` in `train`, and the error_log calls are not modelled.
- The UI methods (`toHTML`, `getTrainingChart`, `getTrainingProgressChart`, `getHistoryPlot`, `listItem`, `getPredictionIndicator`), `__wakeup` and `parent::handleSaveRequest` are not part of this model.
- Request fields are taken as already-`intval`'d integers; PHP's string parsing and `explode` are not modelled.
- Concurrency: the shared sample buffer and the history table are modelled for one caller at a time.
