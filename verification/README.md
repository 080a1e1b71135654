# Video thumbnail extraction: a verified model of the core

This project models the core of a desktop application. The application
takes an MP4 video and samples frames from it. It detects faces in those
frames, picks a set of frames that are both good and different from each
other, and writes each chosen frame as a thumbnail cropped to the user's
output size and orientation. The model covers:

- the value types: `Point2D`, `BoundingBox` and `FaceDetectionResult`;
- the records that change in place, with their state machines:
  - `VideoFile`, `Frame`, `Thumbnail` and `UserSettings`;
  - `ThumbnailExtractionJob`: created, running, paused, then completed, failed or cancelled;
- the four services:
  - `VideoProcessor`: the sampling schedule with its bounded buffer, rotation parsing, scene changes and the quality blend;
  - `FaceDetector`: the size filter, the batch error-rate rule, the primary face, the quality score and the setters;
  - `DiversitySelector`: the three diversity averagers, blending with quality, stable ranking, the top-2K candidates, one representative per cluster, then the fill;
  - `ThumbnailExtractor`: extraction, the crop toward the output aspect ratio, letterboxed resizing, orientation crops, single and batch saves, and job creation;
- the exception hierarchy and its formatting helpers;
- the settings record with its key-checked access and validation;
- the GUI's background worker and worker pool, and the progress arithmetic of the extraction run.

There is one Dafny file, holding one module, per source file of the core, plus three helper modules:

- `numerics.dfy` (module `PyMath`) holds Python's float built-ins.
- `text.dfy` holds decimal formatting and parsing.
- `ordering.dfy` holds the stable descending sort that the job and the selector use.

Python floats are idealised as Dafny `real`. Python's `int()`, `//`, `%` and `round()` are written out explicitly (truncation, flooring, ties to even). Objects whose fields the source assigns are Dafny classes, and their methods state the whole new state. Pure computations are functions with lemmas about them.

OpenCV, MediaPipe, scikit-learn, ffprobe and the file system become inputs to the model, as are the clock and the other thread's timing. Each input is supplied as a value:

- what the capture reports;
- the image statistics behind each quality measure;
- the detector's boxes;
- the distance and correlation matrices;
- the KMeans labels;
- whether a write succeeds;
- which paths exist;
- `now`;
- whether a thread stops in time;
- where in the run a cancel is seen.

## Model

| member | source | states |
|---|---|---|
| Point2D.TranslateInverse | src/models/point_2d.py:57-59 | translating by (dx, dy) and then by (-dx, -dy) gives the original point back |
| Point2D.ManhattanDistanceProperties | src/models/point_2d.py:40-45 | the Manhattan distance is symmetric, non-negative, and zero exactly between equal points |
| Point2D.MidpointProperties | src/models/point_2d.py:47-55 | the midpoint is symmetric in its arguments, equally far from both points on each axis, and a point's midpoint with itself is the point |
| Point2D.ScaleProperties | src/models/point_2d.py:61-75 | scaling fixes its origin, factor 1 is the identity, the offset from the origin is multiplied by the factor, and a missing origin means (0, 0) |
| Point2D.ToIntTuple | src/models/point_2d.py:102-104 | each coordinate is rounded to an integer at most 0.5 away |
| Point2D.NormalizedBoundsAreUnitBounds | src/models/point_2d.py:106-112 | being within normalised bounds is being within bounds 1 x 1 |
| Point2D.Normalize | src/models/point_2d.py:114-119 | ValueError exactly when a size is not positive; otherwise the coordinates divided by width and height |
| Point2D.Denormalize | src/models/point_2d.py:121-126 | ValueError exactly when a size is not positive |
| Point2D.NormalizeRoundTrip | src/models/point_2d.py:114-126 | denormalising a normalised point gives the point back, and a point inside the image normalises into the unit square |
| Point2D.Div | src/models/point_2d.py:144-148 | ZeroDivisionError exactly for a zero scalar; otherwise a point that multiplied back by the scalar is the original |
| Point2D.AddSubInverse | src/models/point_2d.py:128-138 | subtracting q undoes adding q, and addition is commutative |
| BoundingBox.New | src/models/bounding_box.py:21-42 | construction succeeds exactly when x, y are in [0, 1], width, height in (0, 1] and the box ends inside the unit square; ValueError otherwise |
| BoundingBox.AspectRatio | src/models/bounding_box.py:98-100 | a positive ratio that times the height gives the width |
| BoundingBox.CenterInside | src/models/bounding_box.py:65-96 | the centre of a valid box lies in the box and in the unit square, and its area is in (0, 1] |
| BoundingBox.ToPixel | src/models/bounding_box.py:102-118 | ValueError for a non-positive image size; otherwise 0 <= px <= W-1 and 1 <= pw <= W-px, the same for y and height |
| BoundingBox.ToPixelXyxy | src/models/bounding_box.py:120-136 | ValueError for a non-positive image size; otherwise 0 <= x1 <= W-1 and x1+1 <= x2 <= W, the same for y |
| BoundingBox.FromPixel | src/models/bounding_box.py:139-159 | succeeds exactly for a positive image size and a non-empty pixel rectangle inside the image, and the box scaled back is that rectangle |
| BoundingBox.FromPixelXyxy | src/models/bounding_box.py:161-181 | corners in either order; succeeds exactly when the corners differ on both axes and lie inside the image |
| BoundingBox.PixelRoundTripIsValid | src/models/bounding_box.py:102-181 | converting a valid box to pixels (either form) and back always constructs a valid box |
| BoundingBox.OverlapsSymmetric | src/models/bounding_box.py:191-199 | overlap is symmetric, and boxes that only share an edge do not overlap |
| BoundingBox.Intersection | src/models/bounding_box.py:201-219 | none exactly when the boxes do not overlap; otherwise a valid box inside both |
| BoundingBox.IntersectionPoints | src/models/bounding_box.py:201-219 | the intersection contains exactly the points both boxes contain |
| BoundingBox.Union | src/models/bounding_box.py:221-234 | a valid box containing both boxes, and inside every box that contains both |
| BoundingBox.IoU | src/models/bounding_box.py:236-251 | IoU lies in [0, 1], is 0 without overlap and positive with overlap |
| BoundingBox.InnerAreaBounds | src/models/bounding_box.py:236-251 | a box inside two others is no larger than either, so the union area is at least the intersection area |
| BoundingBox.IoUSymmetric | src/models/bounding_box.py:236-251 | IoU does not depend on the order of the boxes, and a box has IoU 1 with itself |
| BoundingBox.Expand | src/models/bounding_box.py:253-266 | ValueError exactly for a negative margin; otherwise a valid box containing the original, and margin 0 changes nothing |
| BoundingBox.ExpandInterval | src/models/bounding_box.py:253-266 | on one axis the grown interval stays in [0, 1], is not empty and covers the original |
| BoundingBox.ScaleBox | src/models/bounding_box.py:268-286 | ValueError exactly for a non-positive factor; otherwise a valid box whose sizes are the scaled sizes capped at 1, keeping the centre whenever it fits |
| Errors.Lineage | src/lib/errors.py:11-401 | the class comes first and is followed by its base classes |
| Errors.DomainIffNotBuiltin | src/lib/errors.py:11-401 | every class of the hierarchy descends from ThumbnailExtractionError, and no built-in exception nor OpenCV's error does |
| Errors.SaveFailuresAreFileSaveErrors | src/lib/errors.py:239-271 | BatchSaveError, DiskSpaceError and FilePermissionError are FileSaveErrors and DirectoryError is not |
| Errors.NewError | src/lib/errors.py:14-25 | a missing or empty code becomes the class name, missing details become an empty map, and a missing or empty user message becomes the class's default text; given values are kept |
| Errors.ToDict | src/lib/errors.py:31-38 | exactly the keys error_code, message, user_message and details, mirroring the fields |
| Errors.HandleError | src/lib/errors.py:409-434 | a domain error gives its to_dict; any other gives code UnexpectedError, the generic user text and its type under details; a context key appears exactly for a non-empty context |
| Errors.UserFriendlyError | src/lib/errors.py:437-466 | a base-class error whose code defaults to GeneralError, whose details are exactly the caller's keys plus original_error (with the type and text), and whose user message is the given one, or the class's default when it is empty |
| Errors.UserText | src/lib/errors.py:469-482 | the user message of a domain error, a fixed generic text otherwise |
| Errors.LogLine | src/lib/errors.py:485-497 | "[" + code + "] " + message, with code UnexpectedError for other exceptions |
| Ordering.SortMultiset | src/models/thumbnail_extraction_job.py:329 | Python's `sorted` over n entries holds each position below n exactly once |
| Ordering.SortDescendingIsStableSort | src/models/thumbnail_extraction_job.py:329 | `sorted(..., reverse=True)` orders the keys descending and keeps entries with equal keys in input order |
| Ordering.TopIsBest | src/models/thumbnail_extraction_job.py:329-330 | the first `count` entries of the descending sort are best first, no entry left out has a higher key than one taken, and a count of at least the length keeps every entry once |
| Text.FormatInt | src/models/user_settings.py:242-246 | `%0Nd` formatting: at least N characters, the digits of a non-negative number reading back as that number, a leading minus for a negative one |
| Text.ReadFormatted | src/models/user_settings.py:242-246 | what the zero-padded format writes for a non-negative number reads back as that number, whatever non-digit text follows |
| Text.ParseFormatted | src/services/video_processor.py:261-268 | `int()` reads back the decimal text of any integer, which is already stripped |
| FaceDetectionResult.New | src/models/face_detection_result.py:24-70 | construction succeeds exactly when confidence is in [0.5, 1], face size in [0.01, 1], every landmark in normalised bounds and every metric a known name with a value in [0, 1]; ValueError otherwise |
| FaceDetectionResult.FaceCenter | src/models/face_detection_result.py:73-76 | the centre of the face box, inside the box and the unit square |
| FaceDetectionResult.OverallQualityScore | src/models/face_detection_result.py:108-135 | the loop over the metric weights computes the quality score: the confidence without metrics, otherwise 0.7 times the weighted mean of the present metrics plus 0.3 times the confidence |
| FaceDetectionResult.WeightedSumBounds | src/models/face_detection_result.py:118-129 | the weighted sum of metrics in [0, 1] lies between 0 and the sum of the weights present |
| FaceDetectionResult.QualityScoreInUnit | src/models/face_detection_result.py:108-135 | the overall quality score of a valid face lies in [0, 1] and is the confidence when there are no metrics |
| FaceDetectionResult.IsHighQuality | src/models/face_detection_result.py:78-105 | the loop over the thresholds decides high quality: some metric passes, the mean of the passing metrics is at least 0.7 and the confidence is at least 0.7 |
| FaceDetectionResult.PassingValuesStep | src/models/face_detection_result.py:90-96 | one threshold step adds the metric to the passing values exactly when it is present and meets its threshold |
| FaceDetectionResult.HighQualityWitness | src/models/face_detection_result.py:78-105 | a high-quality face has confidence of at least 0.7 and some metric of at least 0.7; without metrics, or with none passing, a face is not high quality |
| FaceDetectionResult.PickLandmarks | src/models/face_detection_result.py:152-161 | the append loop picks exactly the landmarks at the given indices, in order |
| FaceDetectionResult.GetEyeLandmarks | src/models/face_detection_result.py:147-162 | the eye landmarks: the mesh indices for a full mesh, otherwise the first four, or none |
| FaceDetectionResult.GetMouthLandmarks | src/models/face_detection_result.py:164-178 | the mouth landmarks: the mesh indices for a full mesh, otherwise the last four, or none |
| FaceDetectionResult.LandmarkSlices | src/models/face_detection_result.py:147-178 | below 468 landmarks the eyes are the first four and the mouth the last four, both empty below four; a full mesh picks the fixed mesh indices |
| FaceDetectionResult.CalculateFaceSymmetry | src/models/face_detection_result.py:180-207 | the pair loop computes the symmetry function |
| FaceDetectionResult.SymmetryInUnit | src/models/face_detection_result.py:180-207 | the symmetry of a valid face lies in [0, 1], and with fewer than 10 landmarks it is the symmetry metric or 0.5 |
| FaceDetectionResult.FrontalWithinThreshold | src/models/face_detection_result.py:209-211 | a face is frontal for threshold t exactly when its angle is within [-t, t], and a larger threshold keeps it frontal |
| VideoFile.RFind | src/models/video_file.py:76 | `str.rfind`: the last position holding the character, or -1 when there is none |
| VideoFile.Mp4Suffix | src/models/video_file.py:76-77 | a file named stem plus extension has that extension as its suffix, and is accepted as MP4 exactly when the extension is ".mp4" in any case |
| VideoFile.NameOfJoin | src/models/video_file.py:54-55 | the name of a path joined from a directory and a name is that name |
| VideoFile.BasicRejection | src/models/video_file.py:65-95 | basic validation passes exactly for an existing regular file with an .mp4 suffix and a size in (0, 2 GiB]; a missing file is rejected as such first |
| VideoFile.PropertyRejection | src/models/video_file.py:97-148 | the stream properties pass exactly when duration is at least 10 s, width and height are in [240, 4096] and fps is in [1, 120] |
| VideoFile.AspectRatio | src/models/video_file.py:161-166 | 0 for a zero height, otherwise width over height |
| VideoFile.ResolutionCategoryMonotone | src/models/video_file.py:168-180 | a larger frame never gets a lower category; 4K exactly from 3840 x 2160, Low exactly below 640 x 480 |
| VideoFile.OrientationExclusive | src/models/video_file.py:182-190 | never both landscape and portrait, and neither exactly for a square frame |
| VideoFile.MinutesSeconds | src/models/video_file.py:192-197 | whole minutes and a seconds part in [0, 60) |
| VideoFile.DurationFormattedReadsBack | src/models/video_file.py:192-197 | the MM:SS text reads back as the whole minutes, a colon and the whole seconds |
| VideoFile.EstimateBounds | src/models/video_file.py:199-213 | the processing estimate lies between duration/20 and duration/10 |
| VideoFile.VideoFile.constructor | src/models/video_file.py:26-41 | the dataclass defaults: no stream properties, not valid, status CREATED, no message, no metadata |
| VideoFile.VideoFile.ValidateBasicProperties | src/models/video_file.py:65-95 | passes exactly when the basic rejection is none; on failure the status is INVALID, the file not valid and the reason recorded, and the size is read from the file system once it is known to be an MP4 file |
| VideoFile.VideoFile.PostInit | src/models/video_file.py:43-63 | the file name defaults to the path's name; after the basic checks pass the status is VALIDATING |
| VideoFile.VideoFile.ValidateVideoProperties | src/models/video_file.py:97-148 | passes exactly when the properties are acceptable and then sets VALID and is_valid and fills a zero frame count with int(duration * fps); otherwise INVALID, not valid, the reason recorded and ValueError |
| VideoFile.VideoFile.StartProcessing | src/models/video_file.py:215-220 | only a VALID file moves to PROCESSING; otherwise ValueError and the status is unchanged |
| VideoFile.VideoFile.CompleteProcessing | src/models/video_file.py:222-227 | only a PROCESSING file moves to COMPLETED; otherwise ValueError and the status is unchanged |
| VideoFile.VideoFile.FailProcessing | src/models/video_file.py:229-233 | any status moves to FAILED, the file becomes invalid and the message is recorded |
| VideoFile.VideoFile.ResetStatus | src/models/video_file.py:235-241 | VALID when the file is valid, INVALID otherwise, and the message is cleared |
| VideoFile.VideoFile.AddMetadata | src/models/video_file.py:243-245 | the metadata gains or replaces exactly that key |
| VideoFile.VideoFile.GetMetadata | src/models/video_file.py:247-249 | the stored value for a present key, the caller's default otherwise |
| VideoFile.FromFilePath | src/models/video_file.py:277-293 | a fresh file named after the path; it fails exactly when basic validation fails, and with validation it ends VALID with the fixed sample properties |
| Frame.QualityBlendBounds | src/models/frame.py:203-221 | 0.2 b + 0.3 c + 0.5 s lies in [0, 1] for measures in [0, 1] and grows with each measure |
| Frame.MeasuresInUnit | src/models/frame.py:174-201 | brightness, contrast and sharpness of plausible pixel statistics, and their blend, lie in [0, 1] |
| Frame.FrameRejection | src/models/frame.py:31-92 | construction passes exactly when frame_number >= 0 and below a positive frame count, timestamp >= 0 and within a positive duration, the image has three channels, and both scores lie in [0, 1]; ValueError otherwise |
| Frame.MostConfident | src/models/frame.py:118-124 | `max` by confidence: none exactly for no faces, otherwise the first face of maximal confidence |
| Frame.Largest | src/models/frame.py:125-131 | `max` by face size: none exactly for no faces, otherwise the first face of maximal size |
| Frame.WithConfidenceExact | src/models/frame.py:223-225 | the faces kept are exactly those meeting the confidence threshold, and all are kept when all meet it |
| Frame.WithConfidenceOrder | src/models/frame.py:223-225 | filtering keeps input order: the filter of a concatenation is the concatenation of the filters |
| Frame.WithSizeExact | src/models/frame.py:227-229 | the faces kept are exactly those meeting the size threshold |
| Frame.WithSizeOrder | src/models/frame.py:227-229 | the size filter keeps input order |
| Frame.HighQualityFacesExact | src/models/frame.py:132-136 | exactly the faces that are high quality |
| Frame.CenteredFacesExact | src/models/frame.py:231-236 | exactly the faces whose centre is within the distance of the image centre |
| Frame.RotatedShape | src/models/frame.py:282-312 | a recorded quarter turn swaps height and width; other shapes are unchanged in length |
| Frame.Frame.AspectRatio | src/models/frame.py:155-158 | 0 for a non-positive height, otherwise width over height |
| Frame.Frame.EstimatedProcessingTime | src/models/frame.py:165-172 | at least 0.01 and at least 0.1 s per Full-HD frame's worth of pixels |
| Frame.Frame.HasFacesIffCount | src/models/frame.py:108-116 | a frame has faces exactly when its face count is positive |
| Frame.Frame.UpdateQualityMetrics | src/models/frame.py:203-221 | the quality score becomes the blend of the three measures, which are recorded in the metadata |
| Frame.Frame.AddMetadata | src/models/frame.py:238-240 | the metadata gains or replaces exactly that key |
| Frame.Frame.SameFrameIsEquivalence | src/models/frame.py:324-333 | frame equality is reflexive, symmetric and transitive, and equal frames share video path and frame number |
| Frame.NewFrame | src/models/frame.py:31-92 | construction succeeds exactly when the frame rejection is none, giving a fresh frame holding the given values |
| Frame.CreateFromOpenCV | src/models/frame.py:282-312 | cv2.error exactly when the decoded image is not a non-empty image of three or four channels; otherwise the three-channel image, turned by the video's rotation, with no faces and zero scores, subject to the construction checks |
| UserSettings.OutputRejection | src/models/user_settings.py:83-104 | the output check passes exactly when width and height are in [240, 4096] and the count in [1, 20]; ValueError otherwise |
| UserSettings.FileRejection | src/models/user_settings.py:109-126 | the file check passes exactly for a non-blank prefix without any of `<>:"/\|?*` and the format PNG in any case |
| UserSettings.QualityRejection | src/models/user_settings.py:128-144 | the quality check passes exactly when quality threshold and diversity weight are in [0, 1] |
| UserSettings.ProcessingRejection | src/models/user_settings.py:146-166 | the processing check passes exactly for a frame interval in (0, 10] and both thresholds in [0, 1] |
| UserSettings.RejectionIffInvalid | src/models/user_settings.py:67-166 | the four checks in order reject exactly the settings that break a range, always with ValueError |
| UserSettings.ConstructionAlwaysFailsAsWritten | src/models/user_settings.py:83-107 | as written every construction fails: settings passing every range check raise AttributeError at the orientation read |
| UserSettings.OrientationExclusive | src/models/user_settings.py:186-194 | never both portrait and landscape output, and neither exactly for a square size |
| UserSettings.AspectRatio | src/models/user_settings.py:169-172 | width over height |
| UserSettings.ResolutionCategoriesNested | src/models/user_settings.py:174-184 | 4K exactly from 3840 x 2160, FHD exactly from 1920 x 1080 below 4K, SD exactly below 1280 x 720 |
| UserSettings.NameSuffix | src/models/user_settings.py:237-246 | the text after the index starts with "_" (with a timestamp) or "." (without) |
| UserSettings.SuffixReadsBack | src/models/user_settings.py:242-244 | the timestamp part reads back as whole minutes and then the seconds below 60 |
| UserSettings.IndexReadsBack | src/models/user_settings.py:237-246 | the file name starts with prefix and "_", and the index reads back from the text after them |
| UserSettings.OutputFilenamesDistinct | src/models/user_settings.py:237-246 | different indices give different file names |
| UserSettings.FaceSizeFilterOrdered | src/models/user_settings.py:253-264 | SMALL halves, BALANCED keeps, MEDIUM multiplies by 1.5 and LARGE doubles the minimum size |
| UserSettings.DiversityConfig | src/models/user_settings.py:266-275 | the six weights; diversity and quality weights sum to 1, the four feature weights sum to 1, and the quality weight is in [0, 1] for valid settings |
| UserSettings.PresetNamed | src/models/user_settings.py:321-361 | exactly the four preset names select a preset |
| UserSettings.PresetsValid | src/models/user_settings.py:321-361 | every preset passes the range checks, and only portrait_mode is portrait |
| UserSettings.CreatePreset | src/models/user_settings.py:321-361 | corrected: ValueError exactly for an unknown name; otherwise valid settings, portrait exactly for portrait_mode, whose undeclared `orientation` keyword is dropped |
| UserSettings.CreatePresetAlwaysFailsAsWritten | src/models/user_settings.py:321-361 | as written every call fails with AttributeError, raised while the first preset is constructed |
| UserSettings.CreatePresetFailsWithTypeError | src/models/user_settings.py:321-361 | with the checks corrected every call still fails, with TypeError: the table is built in full before the lookup, and the portrait_mode entry passes an `orientation` keyword the class does not declare |
| UserSettings.UserSettings.AddCustomSetting | src/models/user_settings.py:277-279 | the custom settings gain or replace exactly that key |
| UserSettings.NewUserSettings | src/models/user_settings.py:67-81 | construction succeeds exactly for valid settings (without the orientation read), and fails with ValueError otherwise |
| Thumbnail.ColorRichness | src/models/thumbnail.py:201-210 | the mean channel deviation over 255, capped at 1, and not negative for plausible image statistics |
| Thumbnail.TotalScoreInUnit | src/models/thumbnail.py:212-233 | the image quality blend is in [0, 1], and the total score lies between the diversity score and the quality, hence in [0, 1] |
| Thumbnail.ConstructionFailure | src/models/thumbnail.py:32-77 | construction is refused (ValueError) exactly for a buffer that is not three-dimensional with three channels or a score outside [0, 1] |
| Thumbnail.BandMonotone | src/models/thumbnail.py:163-184 | the score band (0.4, 0.6, 0.8 thresholds) grows with the score; top band exactly from 0.8, bottom band exactly below 0.4 |
| Thumbnail.CategoriesDetermineBand | src/models/thumbnail.py:163-184 | two scores get the same quality (or diversity) category exactly when they fall in the same band; "Excellent" exactly from 0.8, "Similar" exactly below 0.4 |
| Thumbnail.Thumbnail.constructor | src/models/thumbnail.py:19-31 | the fields take the given values |
| Thumbnail.Thumbnail.AspectRatio | src/models/thumbnail.py:94-97 | width over height, and 0 for a non-positive height |
| Thumbnail.Thumbnail.ExactlyOneOrientation | src/models/thumbnail.py:104-117 | every thumbnail is exactly one of landscape, portrait and square |
| Thumbnail.Thumbnail.FileName | src/models/thumbnail.py:119-122 | a name exactly when a path is recorded, and the name has no directory separator |
| Thumbnail.Thumbnail.UpdateQualityMetrics | src/models/thumbnail.py:212-233 | the four measures recorded in the metadata, the total score recomputed from diversity score, diversity weight and the quality blend, in [0, 1] for in-range inputs |
| Thumbnail.Thumbnail.Save | src/models/thumbnail.py:235-276 | the path chosen (explicit, recorded, default); refused when it exists without overwrite; the path recorded only on a successful write |
| Thumbnail.SaveDoesNotClobber | src/models/thumbnail.py:235-276 | a save succeeds exactly when written and the file is new or overwriting; a second save to the recorded path without overwrite is refused; a failed save keeps the old path |
| Thumbnail.Thumbnail.LoadFromFile | src/models/thumbnail.py:278-302 | loads exactly when the file exists and decodes; then the buffer is the decoded size in three channels and the path recorded; otherwise nothing changes |
| Thumbnail.Thumbnail.DeleteFile | src/models/thumbnail.py:304-314 | deletes exactly when a recorded file exists and the unlink succeeds; then the path is cleared; nothing else changes |
| Thumbnail.Thumbnail.Copy | src/models/thumbnail.py:316-333 | a fresh thumbnail with the same contents, or the construction error the copy's checks raise |
| Thumbnail.Thumbnail.Resize | src/models/thumbnail.py:335-356 | itself back when the resize or the copy fails; otherwise a fresh, unsaved thumbnail of the new size with the same scores, frame, settings and metadata |
| Thumbnail.Thumbnail.AddMetadata | src/models/thumbnail.py:358-360 | the metadata gains or replaces exactly that key; nothing else changes |
| Thumbnail.Thumbnail.GetMetadata | src/models/thumbnail.py:362-364 | the stored value, or the default for a missing key |
| Thumbnail.SameThumbnailIsEquivalence | src/models/thumbnail.py:447-457 | equality by (frame, width, height) is an equivalence and equal thumbnails hash alike |
| Thumbnail.SortsBeforeIsDescending | src/models/thumbnail.py:459-463 | `<` is a strict order by descending total score; incomparable thumbnails score alike |
| Thumbnail.NewThumbnail | src/models/thumbnail.py:32-77 | a fresh thumbnail with the given fields exactly when the construction checks pass, ValueError otherwise |
| Thumbnail.TargetShape | src/models/thumbnail.py:414-421 | the buffer shape after resizing: the output height and width, then the channel axis of an image of two or more channels; a one-channel or two-dimensional image comes back two-dimensional, and an image of the output size is kept as it is |
| Thumbnail.CreateFromFrame | src/models/thumbnail.py:403-434 | succeeds exactly for a three-channel image whose resize OpenCV accepts; IndexError for fewer than two dimensions; cv2.error when a resize is needed and OpenCV refuses it (a side of the image or of the output not positive, four or more dimensions, or zero or over 512 channels); the result has the output size, zero diversity score, and the total score weighted from the quality blend |
| Thumbnail.ResizeAxesAtConstruction | src/models/thumbnail.py:414-421 | a four-dimensional image that needs resizing is refused, and a one-channel image comes back without its channel axis |
| Thumbnail.ResizedThumbnail | src/models/thumbnail.py:410-428 | the resized, unmeasured thumbnail: output size, zero scores, unsaved; IndexError below two dimensions, cv2.error for a resize OpenCV refuses (a side not positive, or a shape it does not take), or the construction error |
| ExtractionJob.FinishedIsFinal | src/models/thumbnail_extraction_job.py:179-257 | a finished job stays finished (only fail, and cancel from Cancelled, are accepted); nothing leads back to Created or into Queued; only start from Created and resume from Paused lead to Running |
| ExtractionJob.FinishingCommands | src/models/thumbnail_extraction_job.py:211-257 | from an unfinished status, exactly complete, fail and cancel finish the job |
| ExtractionJob.SuccessRate | src/models/thumbnail_extraction_job.py:158-168 | 0 without settings, in [0, 1] otherwise, and 1 exactly when the target is reached |
| ExtractionJob.Percentage | src/models/thumbnail_extraction_job.py:284-288 | the step over the total times 100: in [0, 100] for a step within the total, 100 at the total |
| ExtractionJob.BestByIsBest | src/models/thumbnail_extraction_job.py:323-339 | the chosen thumbnails are in descending key order, none left out has a higher key, and a count of at least the length keeps them all |
| ExtractionJob.Summary | src/models/thumbnail_extraction_job.py:341-372 | the recorded counts, with video facts exactly when a video is set |
| ExtractionJob.SummaryBounds | src/models/thumbnail_extraction_job.py:341-372 | success rate and both averages in [0, 1] when the scores are |
| ExtractionJob.ExtractionJob.constructor | src/models/thumbnail_extraction_job.py:54-89 | a Created job with initial progress, empty frame and thumbnail lists, no times, error or statistics |
| ExtractionJob.ExtractionJob.UpdateStatistics | src/models/thumbnail_extraction_job.py:341-372 | the statistics become those of the current counts and times |
| ExtractionJob.ExtractionJob.StartJob | src/models/thumbnail_extraction_job.py:179-189 | accepted exactly from Created (ValueError and no change otherwise); then Running, started now, initializing phase, one progress notice |
| ExtractionJob.ExtractionJob.PauseJob | src/models/thumbnail_extraction_job.py:191-199 | accepted exactly from Running; then Paused with one progress notice |
| ExtractionJob.ExtractionJob.ResumeJob | src/models/thumbnail_extraction_job.py:201-209 | accepted exactly from Paused; then Running with one progress notice |
| ExtractionJob.ExtractionJob.CompleteJob | src/models/thumbnail_extraction_job.py:211-227 | accepted exactly from Running or Paused; then Completed now, finalizing at 100 percent with the last step, statistics updated, one progress and one completion notice |
| ExtractionJob.ExtractionJob.FailJob | src/models/thumbnail_extraction_job.py:229-242 | accepted in every status; Failed now with the message and details (empty when none), statistics updated, both notices |
| ExtractionJob.ExtractionJob.CancelJob | src/models/thumbnail_extraction_job.py:244-257 | refused exactly from Completed and Failed; then Cancelled now, statistics updated, both notices |
| ExtractionJob.ExtractionJob.UpdateProgress | src/models/thumbnail_extraction_job.py:259-289 | each given field replaced and the others kept; the percentage recomputed only for a positive total; one progress notice |
| ExtractionJob.ExtractionJob.AddExtractedFrame | src/models/thumbnail_extraction_job.py:291-297 | the frame appended to the extracted frames |
| ExtractionJob.ExtractionJob.AddFilteredFrame | src/models/thumbnail_extraction_job.py:299-305 | the frame appended to the filtered frames |
| ExtractionJob.ExtractionJob.AddSelectedFrame | src/models/thumbnail_extraction_job.py:307-313 | the frame appended to the selected frames |
| ExtractionJob.ExtractionJob.AddGeneratedThumbnail | src/models/thumbnail_extraction_job.py:315-321 | the thumbnail appended to the generated thumbnails |
| ExtractionJob.BestThumbnailsAreBest | src/models/thumbnail_extraction_job.py:323-339 | the best (most diverse) thumbnails outscore in total (diversity) score every generated thumbnail left out |
| ExtractionJob.ExtractionJob.AddMetadata | src/models/thumbnail_extraction_job.py:390-392 | the metadata gains or replaces exactly that key |
| ExtractionJob.ExtractionJob.GetMetadata | src/models/thumbnail_extraction_job.py:394-396 | the stored value, or the default for a missing key |
| ExtractionJob.Create | src/models/thumbnail_extraction_job.py:446-467 | a fresh Created job for the video and settings exactly for a non-blank identifier, ValueError otherwise |
| VideoProcessor.ProbeRotation | src/services/video_processor.py:261-268 | a rotation is one of 0, 90, 180, 270, and none for missing or blank probe output |
| VideoProcessor.ProbeRotationReadsPrinted | src/services/video_processor.py:261-268 | a printed integer with surrounding blanks gives its value modulo 360 exactly when that is a right angle |
| VideoProcessor.CodecName | src/services/video_processor.py:107-109 | the codec name is four characters |
| VideoProcessor.BytesOfPack | src/services/video_processor.py:108 | splitting a code into low-order-first bytes inverts packing them |
| VideoProcessor.CodecNameOfPacked | src/services/video_processor.py:107-109 | a four-character code packed into the FOURCC property reads back as the same name |
| VideoProcessor.StreamRejection | src/services/video_processor.py:71-112 | the stream is accepted exactly for positive fps and frame count and properties the video file accepts after the rotation swap; the errors are CorruptedVideoError or VideoProcessingError |
| VideoProcessor.LoadRejectionKinds | src/services/video_processor.py:57-130 | loading fails only with FileNotFoundError, CorruptedVideoError or VideoProcessingError, and always when the capture cannot open |
| VideoProcessor.BufferStaysBounded | src/services/video_processor.py:171-188 | the frame buffer never exceeds 100 entries; it is cleared when full, then the new entry appended |
| VideoProcessor.PositionIsMultiple | src/services/video_processor.py:159-203 | the k-th visited position is k times the step |
| VideoProcessor.ZeroStepNeverExits | src/services/video_processor.py:159-207 | as written, fps times interval below 1 gives a step of 0 and the position never reaches the end |
| VideoProcessor.SamplingStepAdvances | src/services/video_processor.py:159 | the corrected step is never 0, equals the written step when that is not 0, and is at least 1 for non-negative fps and interval |
| VideoProcessor.SampledRunGrows | src/services/video_processor.py:163-207 | a run of sampled frames extended by the frame at the next position is still a sampled run |
| VideoProcessor.Sample | src/services/video_processor.py:175-186 | a frame at the position with its timestamp and measures, or ZeroDivisionError for zero fps, cv2.error for an image that cannot be converted to RGB, or ValueError from the frame checks |
| VideoProcessor.Visit | src/services/video_processor.py:165-189 | no read ends the run; otherwise the buffer is bounded and gains the position only for a good frame, and the frame is sampled |
| VideoProcessor.HistogramDifference | src/services/video_processor.py:387-426 | the difference is in [0, 1] |
| VideoProcessor.HistogramDifferenceMeaning | src/services/video_processor.py:411-422 | one minus the mean correlation, clamped to [0, 1] |
| VideoProcessor.SceneChangePositionsExact | src/services/video_processor.py:279-299 | the chosen positions increase, and a position is chosen exactly when it is the first or its difference from the previous frame reaches the threshold |
| VideoProcessor.SceneScoresDomain | src/services/video_processor.py:282-292 | exactly the frames after the first receive a scene score |
| VideoProcessor.SceneScoresLastWins | src/services/video_processor.py:282-292 | a frame's scene score is the difference computed at its last position in the list |
| VideoProcessor.DetectSceneChangesAsWritten | src/services/video_processor.py:223-240 | as written: an InvalidThresholdError exactly outside [0, 1], and otherwise the method falls off its end and returns None |
| VideoProcessor.SceneChangesAsWrittenLoseFirstFrame | src/services/video_processor.py:223-240 | as written two or more frames give None, where the loop after the rotation helper would keep at least the first frame |
| VideoProcessor.BrightnessQualityShape | src/services/video_processor.py:428-444 | 1 exactly for brightness in [0.3, 0.7], in [0, 1] for brightness in [0, 1], rising below 0.7 and falling above 0.3 |
| VideoProcessor.QualityScore | src/services/video_processor.py:331-342 | the clamped blend is in [0, 1] |
| VideoProcessor.QualityScoreUnclamped | src/services/video_processor.py:326-342 | for plausible statistics each measure is in [0, 1] and the clamp changes nothing; an unconvertible image scores 0.5 |
| VideoProcessor.OpenVideoFile | src/services/video_processor.py:59 | the video file of the path, or the error its basic checks raise |
| VideoProcessor.ReadStream | src/services/video_processor.py:71-80 | the truncated frame count, the rotation from the probe, and the display size with width and height swapped at 90 and 270 |
| VideoProcessor.RecordStream | src/services/video_processor.py:98-109 | fps, size, frame count and duration recorded, the rotation when known and the codec name added to the metadata |
| VideoProcessor.VideoProcessor.constructor | src/services/video_processor.py:32-37 | an empty frame buffer |
| VideoProcessor.VideoProcessor.LoadVideo | src/services/video_processor.py:39-130 | fails exactly as the load rejection says with its error; otherwise a fresh, valid video file with the stream's fps, frames, display size, duration and metadata |
| VideoProcessor.VideoProcessor.LoadStream | src/services/video_processor.py:69-116 | the stream rejection, and on success the recorded stream properties and a valid status |
| VideoProcessor.VideoProcessor.ValidateVideoFile | src/services/video_processor.py:371-385 | true exactly when loading succeeds |
| VideoProcessor.VideoProcessor.ExtractFrames | src/services/video_processor.py:132-221 | ValueError for a non-positive interval, VideoProcessingError for an unopened capture or a video not ready; otherwise the frames sampled at multiples of the step until the end or a failed read, Completed or Failed status, and the buffer cleared |
| VideoProcessor.VideoProcessor.ExtractOpened | src/services/video_processor.py:156-221 | the sampling run on an opened capture with the status it leaves and the buffer cleared |
| VideoProcessor.VideoProcessor.Conclude | src/services/video_processor.py:209-218 | Completed without a failure; Failed with the failure's class name as its message and VideoProcessingError otherwise |
| VideoProcessor.VideoProcessor.SampleAll | src/services/video_processor.py:163-207 | the sampled run stops where the source loop stops, and the buffer stays bounded |
| VideoProcessor.VideoProcessor.DetectSceneChanges | src/services/video_processor.py:237-306 | corrected: InvalidThresholdError exactly outside [0, 1]; fewer than two frames come back unchanged; otherwise the frames at the scene-change positions, each later frame carrying its scene score |
| VideoProcessor.VideoProcessor.ScoreFrame | src/services/video_processor.py:287-292 | the frame's scene score becomes the difference at that position, and the scores recorded so far stay in force |
| VideoProcessor.VideoProcessor.CalculateQualityScore | src/services/video_processor.py:308-349 | InvalidFrameDataError exactly for a missing frame or image; otherwise the quality score, with the three measures recorded in the frame's metadata |
| VideoProcessor.VideoProcessor.Cleanup | src/services/video_processor.py:475-482 | the frame buffer is emptied |
| FaceDetector.FaceMetrics | src/services/face_detector.py:424-478 | the four quality metrics, each in [0, 1]; all 0.5 for an empty or failing region, symmetry 0.5 without a correlation |
| FaceDetector.SimpleLandmarks | src/services/face_detector.py:480-492 | five points: eyes and mouth corners mirrored about the centre, the nose at the centre, the left eye left of the right one exactly for a positive width |
| FaceDetector.SimpleLandmarksInside | src/services/face_detector.py:480-492 | for a valid box all five estimated landmarks lie inside it and are normalised |
| FaceDetector.FaceFromDetectionExact | src/services/face_detector.py:380-422 | a face is built exactly for a valid box, a score the face checks accept and an area at least 0.01; it carries the box, the score, the area as size, angle 0, the estimated landmarks and the region's metrics |
| FaceDetector.KeptExact | src/services/face_detector.py:94-108 | a face is kept exactly when some detection builds it and it reaches the minimum size; kept faces are valid |
| FaceDetector.SurvivorsExact | src/services/face_detector.py:96-108 | the survivors are exactly the built faces of at least the minimum size |
| FaceDetector.OutcomeCases | src/services/face_detector.py:82-123 | detection succeeds exactly for a three-channel image and a detector that answered, giving the kept faces; otherwise FaceDetectionError or InvalidFrameError |
| FaceDetector.BatchResults | src/services/face_detector.py:145-158 | one entry per processed frame |
| FaceDetector.BatchResultsEntry | src/services/face_detector.py:149-158 | each entry is that frame's faces, or empty when its detection failed |
| FaceDetector.ErrorCount | src/services/face_detector.py:149-158 | at most one error per frame |
| FaceDetector.TooManyErrorsIsMajority | src/services/face_detector.py:160-170 | the error rate exceeds one half exactly when twice the errors exceed the frames |
| FaceDetector.FacesAfterDomain | src/services/face_detector.py:110-111 | a frame's recorded faces change exactly when one of its detections succeeds |
| FaceDetector.WithFacesExact | src/services/face_detector.py:203-207 | a frame is kept exactly when one of its entries has faces; no more frames than given |
| FaceDetector.Prominences | src/services/face_detector.py:235 | each face's confidence times size |
| FaceDetector.MostProminent | src/services/face_detector.py:229-236 | none exactly for no faces; otherwise the first face of greatest confidence times size |
| FaceDetector.FaceLandmarks | src/services/face_detector.py:332-378 | LandmarkExtractionError exactly for a missing face; the stored landmarks when there are some, else five estimated with the nose at the box centre; normalised for a valid box |
| FaceDetector.FaceDetector.constructor | src/services/face_detector.py:33-66 | the given confidence and minimum face size |
| FaceDetector.FaceDetector.DetectFaces | src/services/face_detector.py:68-123 | InvalidFrameError for a missing frame, otherwise the frame's outcome; on success the frame records the faces, on failure its faces are unchanged |
| FaceDetector.FaceDetector.Detect | src/services/face_detector.py:85-123 | the outcome for a present frame, recorded on the frame on success |
| FaceDetector.FaceDetector.DetectFacesBatch | src/services/face_detector.py:125-182 | empty for no frames; BatchProcessingError exactly when more than half the frames fail; otherwise one entry per frame; every frame's faces as its detection left them |
| FaceDetector.FaceDetector.DetectAll | src/services/face_detector.py:145-158 | the entries and the error count of the loop, each frame's faces as its detection left them |
| FaceDetector.FaceDetector.FilterFramesWithFaces | src/services/face_detector.py:184-217 | empty for no frames; FaceDetectionError exactly when the batch fails; otherwise the frames with faces, in order |
| FaceDetector.FaceDetector.ZipKeep | src/services/face_detector.py:204-207 | the frames whose entries are non-empty, in order |
| FaceDetector.FaceDetector.GetPrimaryFace | src/services/face_detector.py:219-240 | the most prominent detected face, or none when detection finds none or fails |
| FaceDetector.FaceDetector.CalculateFaceQuality | src/services/face_detector.py:242-290 | InvalidFaceDataError exactly for a missing face or frame; otherwise the face's quality, in [0, 1] for a valid face, the confidence without metrics |
| FaceDetector.FaceDetector.SetDetectionConfidence | src/services/face_detector.py:292-314 | InvalidConfidenceError and no change exactly outside [0, 1], otherwise the new confidence; the range invariant is kept |
| FaceDetector.FaceDetector.SetMinFaceSize | src/services/face_detector.py:316-330 | InvalidSizeRatioError and no change exactly outside [0, 1], otherwise the new minimum; the range invariant is kept |
| DiversitySelector.FeatureDiversity | src/services/diversity_selector.py:267-291 | one score per frame, each in [0, 1]; all 1 below two frames, all 0.5 when the features fail |
| DiversitySelector.FeatureDiversityScores | src/services/diversity_selector.py:280-287 | the loop computes the feature diversity of every frame |
| DiversitySelector.FeatureDiversityIsMeanDistance | src/services/diversity_selector.py:281-285 | for distances in [0, 1] a frame's score is its mean distance to the other frames, unclamped |
| DiversitySelector.HistogramDiversity | src/services/diversity_selector.py:293-324 | one score per frame, each in [0, 1]; all 1 below two frames, all 0.5 on failure |
| DiversitySelector.HistogramDiversityScores | src/services/diversity_selector.py:299-320 | the nested loop computes the histogram diversity of every frame |
| DiversitySelector.DistanceSumExceptIsSum | src/services/diversity_selector.py:305-315 | the inner loop's running total is the sum of the distances to the other frames seen so far |
| DiversitySelector.HistogramIsMeanOfDistances | src/services/diversity_selector.py:293-320 | the histogram diversity is the feature diversity of the distance matrix (one minus the clipped correlation) |
| DiversitySelector.HistogramScoreIsFeatureScore | src/services/diversity_selector.py:301-318 | the frame's histogram score equals its mean-distance score over the distance matrix |
| DiversitySelector.FacePositionDiversity | src/services/diversity_selector.py:326-355 | one score per frame, at most 1; all 1 below two frames, all 0.5 on failure |
| DiversitySelector.FacePositionDiversityScores | src/services/diversity_selector.py:341-351 | the loop computes the face-position diversity of every frame |
| DiversitySelector.FacePositionInUnit | src/services/diversity_selector.py:342-349 | for non-negative distances the score is in [0, 1], and 0 when every distance is 0 |
| DiversitySelector.MaxOfBounds | src/services/diversity_selector.py:348 | the maximum bounds every element |
| DiversitySelector.DiversityScores | src/services/diversity_selector.py:46-106 | one score per frame, each in [0, 1] |
| DiversitySelector.CalculateDiversityScores | src/services/diversity_selector.py:59-99 | the loop computes the blended diversity of every frame |
| DiversitySelector.BlendNeedsNoClamp | src/services/diversity_selector.py:88-96 | the 0.4/0.3/0.3 blend of the three scores needs no clamp |
| DiversitySelector.CombinedBetween | src/services/diversity_selector.py:146-157 | each combined score lies between the frame's diversity and quality; weight 1 gives the diversity, weight 0 the quality |
| DiversitySelector.CombinedScores | src/services/diversity_selector.py:147-157 | the loop computes the combined score of every frame |
| DiversitySelector.ScoredFrames | src/services/diversity_selector.py:157-160 | one (score, position, frame) entry per frame, each naming its own frame and score |
| DiversitySelector.ScoredFramesSorted | src/services/diversity_selector.py:159-160 | the ranking is by descending score, stable on ties, and a permutation of the positions |
| DiversitySelector.CandidateFrames | src/services/diversity_selector.py:366-369 | the first k ranked frames |
| DiversitySelector.CandidatesAreBest | src/services/diversity_selector.py:366-369 | every candidate scores at least as high as every frame left out |
| DiversitySelector.BestInIsFirstMax | src/services/diversity_selector.py:409-419 | a cluster has a best member exactly when some member scores above -1; it is the first of greatest score |
| DiversitySelector.Representatives | src/services/diversity_selector.py:402-422 | at most one position per cluster, all among the candidates |
| DiversitySelector.RepresentativesExact | src/services/diversity_selector.py:402-422 | each entry is its cluster's best member, in cluster order, every cluster with a best member is represented, and no position twice |
| DiversitySelector.ClusterRepresentatives | src/services/diversity_selector.py:402-422 | the loop over clusters computes the representatives |
| DiversitySelector.ListedExact | src/services/diversity_selector.py:427 | a frame is in the selection exactly when it equals some selected candidate |
| DiversitySelector.PassKeeps | src/services/diversity_selector.py:426-430 | a pass keeps the selection as its prefix, stops at `count`, and adds nothing to a full selection |
| DiversitySelector.PassAppendsInOrder | src/services/diversity_selector.py:426-430 | a pass appends candidates in increasing (score) order |
| DiversitySelector.PassAppendsNew | src/services/diversity_selector.py:426-430 | each appended candidate equals none before it |
| DiversitySelector.PassComplete | src/services/diversity_selector.py:426-430 | a pass that ends short of `count` leaves every candidate equal to a selected one |
| DiversitySelector.PassSettled | src/services/diversity_selector.py:429-430 | once `count` is reached, the rest of the pass changes nothing |
| DiversitySelector.PassNoop | src/services/diversity_selector.py:426-430 | a pass over a full selection, or one already holding every candidate, changes nothing |
| DiversitySelector.FillAsWrittenFixed | src/services/diversity_selector.py:425-430 | a selection one pass leaves unchanged is left unchanged by the whole loop |
| DiversitySelector.FillAsWrittenIsFillOrDiverges | src/services/diversity_selector.py:425-430 | the loop computes exactly one pass, and when its guard still holds after that pass it never exits |
| DiversitySelector.FillPass | src/services/diversity_selector.py:425-430 | corrected: one pass over the candidates, stopping at `count` |
| DiversitySelector.ChosenFacts | src/services/diversity_selector.py:401-432 | at most `count` distinct positions: the representatives first, then new frames in score order; short of `count` only when every candidate is already chosen |
| DiversitySelector.SelectedPositionsFacts | src/services/diversity_selector.py:362-437 | at most `count` distinct candidate positions; the first `count` when clustering fails |
| DiversitySelector.SelectWithClustering | src/services/diversity_selector.py:357-437 | every frame when at most `count`, otherwise the frames at the selected ranking positions |
| DiversitySelector.SelectionFromBestCandidates | src/services/diversity_selector.py:357-437 | the selection is at most `count` distinct frames, each scoring at least as high as any frame outside the candidates, and the top `count` when clustering fails |
| DiversitySelector.SelectDiverseFrames | src/services/diversity_selector.py:108-177 | InvalidCountError, InvalidWeightError and InsufficientFramesError in that order of checks; every frame when at most `count`; otherwise the cluster selection over the combined ranking |
| DiversitySelector.SingleClusterPicksBest | src/services/diversity_selector.py:409-422 | corrected: with one cluster the best-ranked candidate represents it |
| DiversitySelector.WrittenLookupPicksWorse | src/services/diversity_selector.py:413-419 | as written, scores 0.5, 0.9, 0.1 and one cluster make the loop keep the 0.5 frame instead of the 0.9 frame |
| DiversitySelector.FillLoopNeverEnds | src/services/diversity_selector.py:425-430 | as written, three candidates that are the same frame in one cluster with `count` 2 keep the loop guard true after any number of passes |
| ThumbnailExtractor.SliceBound | src/services/thumbnail_extractor.py:146 | a NumPy slice bound lands within the axis, and an in-range bound is kept |
| ThumbnailExtractor.Slice | src/services/thumbnail_extractor.py:144-152 | the start and length a slice selects stay within the axis, exactly as given for an in-range slice |
| ThumbnailExtractor.Apply | src/services/thumbnail_extractor.py:144-168 | a cut always selects a region within the image |
| ThumbnailExtractor.GeneratedShape | src/services/thumbnail_extractor.py:125-178 | the generated buffer keeps the image's extra dimensions |
| ThumbnailExtractor.TruncQuotient | src/services/thumbnail_extractor.py:143 | `int` of a non-negative real quotient is the integer quotient |
| ThumbnailExtractor.CompareQuotients | src/services/thumbnail_extractor.py:140-141 | comparing the two aspect ratios is comparing the cross products |
| ThumbnailExtractor.CentredColumns | src/services/thumbnail_extractor.py:143-146 | cutting a narrower width keeps the full height and is centred |
| ThumbnailExtractor.CentredRows | src/services/thumbnail_extractor.py:149-152 | cutting a lower height keeps the full width and is centred |
| ThumbnailExtractor.ColumnsWidth | src/services/thumbnail_extractor.py:143 | for a wider image the new width is the integer quotient, below the width |
| ThumbnailExtractor.RowsHeight | src/services/thumbnail_extractor.py:149 | for a taller image the new height is the integer quotient, below the height |
| ThumbnailExtractor.WideCut | src/services/thumbnail_extractor.py:141-146 | a wider image has its columns cut to the output ratio, centred |
| ThumbnailExtractor.TallCut | src/services/thumbnail_extractor.py:147-152 | a taller image has its rows cut to the output ratio, centred |
| ThumbnailExtractor.GenerationCutChoice | src/services/thumbnail_extractor.py:136-168 | columns are cut for a wider image, rows for a taller one, nothing at equal ratio |
| ThumbnailExtractor.GenerationCutGeometry | src/services/thumbnail_extractor.py:136-168 | both orientation branches cut alike; a wider image keeps its height and gets the ratio's width, a taller one keeps its width, both centred; nothing is cut exactly at equal ratio |
| ThumbnailExtractor.OrientationCutChoice | src/services/thumbnail_extractor.py:270-310 | at 16:9 or 9:16, columns are cut for a wider image, rows for a taller one, nothing at equal ratio |
| ThumbnailExtractor.OrientationWide | src/services/thumbnail_extractor.py:283-301 | a wider image keeps its height and gets the ratio's width, centred |
| ThumbnailExtractor.OrientationTall | src/services/thumbnail_extractor.py:277-307 | a taller image keeps its width and gets the ratio's height, centred |
| ThumbnailExtractor.OrientationCutGeometry | src/services/thumbnail_extractor.py:270-310 | the crop's geometry: full height for a wider image, full width for a taller one, centred, and a copy exactly at the target ratio |
| ThumbnailExtractor.CropToOrientationFacts | src/services/thumbnail_extractor.py:252-317 | InvalidOrientationError exactly for another name, otherwise CropError or the cropped shape, which keeps the extra dimensions and matches 16:9 or 9:16; it succeeds for a three-dimensional image with rows |
| ThumbnailExtractor.ScaledSizeFits | src/services/thumbnail_extractor.py:216-221 | the scaled size fits the target |
| ThumbnailExtractor.WidthLimits | src/services/thumbnail_extractor.py:216-221 | when the width limits, the scaled width is the target and the height its integer share |
| ThumbnailExtractor.HeightLimits | src/services/thumbnail_extractor.py:216-221 | when the height limits, the scaled height is the target and the width its integer share |
| ThumbnailExtractor.ScaledSizeIsTruncatedScale | src/services/thumbnail_extractor.py:216-221 | the integer scaled size equals `int` of each side times the smaller scale |
| ThumbnailExtractor.ResizeImageFits | src/services/thumbnail_extractor.py:187-250 | InvalidDimensionsError exactly for a non-positive target, otherwise ImageResizeError or an image of the target size with the picture centred |
| ThumbnailExtractor.ResizeImageKeepsAspect | src/services/thumbnail_extractor.py:214-240 | keeping the aspect, the picture fills the limiting side and scales the other |
| ThumbnailExtractor.ExactQuotient | src/services/thumbnail_extractor.py:220-221 | multiplying and dividing by the same positive number is the identity |
| ThumbnailExtractor.ResizeImageAxes | src/services/thumbnail_extractor.py:211-250 | stretching succeeds exactly on a two-dimensional image or one of 1 to 512 channels, a single channel coming back two-dimensional; four or more dimensions are an ImageResizeError in either mode |
| ThumbnailExtractor.BroadcastsItself | src/services/thumbnail_extractor.py:237 | a resized image of exactly the window's shape can be pasted into the canvas |
| ThumbnailExtractor.ResizeImageSucceeds | src/services/thumbnail_extractor.py:211-250 | for a positive target and a three-channel image the resize succeeds unless keeping the aspect scales a side to zero |
| ThumbnailExtractor.GenerateThumbnail | src/services/thumbnail_extractor.py:111-185 | succeeds exactly for a frame that renders: a three-dimensional three-channel image whose cut, when it must be resized, has no empty side; otherwise ThumbnailGenerationError; the thumbnail is made from the frame at the output size and measured |
| ThumbnailExtractor.RendersIffCutNonEmpty | src/services/thumbnail_extractor.py:125-178 | for a three-channel image and a positive output size, a thumbnail is made exactly when the cut keeps both sides non-empty |
| ThumbnailExtractor.SinglePixelDoesNotRender | src/services/thumbnail_extractor.py:136-185 | a 1x1 three-channel frame with a 1080x1920 output is an image but yields no thumbnail: its cut has no columns and the resize raises |
| ThumbnailExtractor.RenderableExact | src/services/thumbnail_extractor.py:79-94 | the frames that yield a thumbnail are exactly the processed frames that render (three-channel, and a non-empty cut when one must be resized), no more than given, and none exactly when no frame renders |
| ThumbnailExtractor.ProgressValues | src/services/thumbnail_extractor.py:82-84 | one report per processed frame |
| ThumbnailExtractor.ProgressAt | src/services/thumbnail_extractor.py:83 | the i-th report is (i + 1) over the total |
| ThumbnailExtractor.ProgressStep | src/services/thumbnail_extractor.py:79-84 | later reports are strictly higher |
| ThumbnailExtractor.ProgressBounded | src/services/thumbnail_extractor.py:79-84 | every report is in (0, 1] |
| ThumbnailExtractor.ProgressRises | src/services/thumbnail_extractor.py:79-84 | the reports rise strictly, stay in (0, 1] and end at exactly 1 |
| ThumbnailExtractor.ExtractThumbnails | src/services/thumbnail_extractor.py:44-109 | InsufficientFramesError without frames, InvalidSettingsError without settings; otherwise the first min(frames, count) frames are processed with their progress reports, ThumbnailExtractionError exactly when none yields a thumbnail, else one thumbnail per frame that renders, in order |
| ThumbnailExtractor.SaveVerdictCases | src/services/thumbnail_extractor.py:319-356 | DiskSpaceError exactly when free space is known and below twice the bytes, FilePermissionError exactly for an unwritable directory with space, otherwise the write's result; every other failure is FileSaveError |
| ThumbnailExtractor.SaveThumbnail | src/services/thumbnail_extractor.py:319-356 | the verdict, and the path recorded exactly on a successful write |
| ThumbnailExtractor.Entries | src/services/thumbnail_extractor.py:394-398 | one file name per thumbnail, from its index and timestamp |
| ThumbnailExtractor.WrittenIndicesExact | src/services/thumbnail_extractor.py:394-411 | the written indices increase, are exactly those whose save succeeded, and with the failures count every thumbnail |
| ThumbnailExtractor.SavedPathsExact | src/services/thumbnail_extractor.py:394-411 | the saved paths are the directory joined with the written entries' names, in order |
| ThumbnailExtractor.BatchSaveOutcome | src/services/thumbnail_extractor.py:358-434 | DirectoryError exactly for a non-empty batch and a directory that cannot be made or written; otherwise success exactly when at most half fail, with the saved paths; every error is DirectoryError or BatchSaveError |
| ThumbnailExtractor.SaveNext | src/services/thumbnail_extractor.py:396-406 | the path of the entry, whether it was written, and the path recorded exactly then |
| ThumbnailExtractor.SaveEach | src/services/thumbnail_extractor.py:390-411 | the loop's saved paths and failure count; only recorded paths change, and for distinct thumbnails each records its path exactly when written |
| ThumbnailExtractor.SaveThumbnailsBatch | src/services/thumbnail_extractor.py:358-434 | the batch outcome; only recorded paths change, each thumbnail's exactly when its write succeeded |
| ThumbnailExtractor.CreateExtractionJob | src/services/thumbnail_extractor.py:436-465 | ThumbnailExtractionError exactly without frames, without settings, or with a blank identifier; otherwise a Created job for the first frame's video holding every frame as extracted |
| Config.FieldNamed | src/lib/config.py:104-107 | a key names a field only when it is that field's name |
| Config.NameRoundTrip | src/lib/config.py:16-55 | every field is found by its own name |
| Config.NamesKnown | src/lib/config.py:16-55 | every field is found by its own name, for all fields at once |
| Config.NamesInjective | src/lib/config.py:16-55 | no two fields share a name |
| Config.Defaults | src/lib/config.py:16-55 | the defaults give every field its declared default value |
| Config.OverlayOnlyFields | src/lib/config.py:104-107 | loading sets exactly the fields the file names, keeps the rest, and ignores keys that are not fields |
| Config.LoadAfterSave | src/lib/config.py:118-136 | loading what `save` wrote restores every value, whatever was loaded before |
| Config.RangeChecksOrdered | src/lib/config.py:184-203 | the seven range checks, one per order position, in the source's order |
| Config.RangeFindingsMembers | src/lib/config.py:184-203 | the first n range checks report exactly the failing checks among them |
| Config.ValidIffNoFinding | src/lib/config.py:178-220 | the configuration is valid exactly when no check raises and none fails |
| Config.DefaultsValid | src/lib/config.py:16-55 | the defaults pass every check |
| Config.RaiseIsFinal | src/lib/config.py:184-220 | a value a range check cannot compare makes validation raise and fail |
| Config.NoRaiseFindings | src/lib/config.py:178-220 | without a raise, no findings exactly when valid, and the last finding is not the raise marker |
| Config.Config.constructor | src/lib/config.py:63-116 | the values are the defaults overlaid with a parsed file, else the defaults; a missing file is written with the defaults when the write succeeds |
| Config.Config.ApplyLoaded | src/lib/config.py:104-107 | the loaded entries overlay the current values |
| Config.Config.Save | src/lib/config.py:118-136 | true exactly when the write succeeds, and the file then holds every value by name |
| Config.Config.Get | src/lib/config.py:138-140 | a field's value for its name, the default for any other key |
| Config.Config.Set | src/lib/config.py:142-162 | an unknown key changes nothing and gives false; a known key takes the value, and the file is written when saving immediately with auto-save on, the result then being the write's |
| Config.Config.GetAll | src/lib/config.py:164-166 | exactly the field names, each with its value |
| Config.Config.ResetToDefaults | src/lib/config.py:168-176 | the values become the defaults, saved, with the write's result |
| Config.Config.CheckRange | src/lib/config.py:184-203 | one range check: raises exactly for a value that cannot be compared, else appends its finding when it fails |
| Config.Config.ValidateConfig | src/lib/config.py:178-220 | true exactly with no findings and exactly for a valid configuration; ends with the raise marker exactly when a check raises; otherwise the findings are exactly the failing checks |
| Config.Config.CheckRanges | src/lib/config.py:184-203 | raises exactly for a non-numeric range field; otherwise the findings are exactly the failing range checks |
| Config.Config.CheckPaths | src/lib/config.py:205-220 | the directory and log-level checks added to the range findings, giving the validation result |
| AsyncWorker.Clamp | src/gui/async_worker.py:236 | a reported progress is held within 0 to 100 and left alone inside that range |
| AsyncWorker.Worker.constructor | src/gui/async_worker.py:52-86 | a new worker is idle with no result, error, times, requests or queued progress |
| AsyncWorker.Worker.ElapsedTime | src/gui/async_worker.py:202-208 | zero before a start, the time since the start while no end is recorded |
| AsyncWorker.Worker.ElapsedRunsUntilEnd | src/gui/async_worker.py:202-208 | the elapsed time grows with the clock while running or paused and stands still once an end time is recorded |
| AsyncWorker.Worker.GetResult | src/gui/async_worker.py:210-218 | the result carries the worker's status, result, error, elapsed time and history, every recorded progress within 0 to 100 |
| AsyncWorker.Worker.Start | src/gui/async_worker.py:88-130 | a running worker refuses and nothing changes; any other worker, paused ones included, is reset and started at `now`, failing with the spawn error when the thread cannot start; its status and cancel event move as the life-cycle step says |
| AsyncWorker.Worker.ResetState | src/gui/async_worker.py:271-289 | back to idle with no result, error, times, requests or queued progress |
| AsyncWorker.Worker.Cancel | src/gui/async_worker.py:132-162 | refused unless running, so also while paused; otherwise the cancel request is set and the worker is cancelled at `now` exactly when the thread stops, the result saying so; its status and cancel event move as the life-cycle step says |
| AsyncWorker.Worker.Pause | src/gui/async_worker.py:164-177 | succeeds exactly for a running worker, which becomes paused; its status and cancel event move as the life-cycle step says |
| AsyncWorker.Worker.Resume | src/gui/async_worker.py:179-192 | succeeds exactly for a paused worker, which runs again; its status and cancel event move as the life-cycle step says |
| AsyncWorker.Worker.ReportProgress | src/gui/async_worker.py:220-253 | a running worker queues the clamped progress with its elapsed time; otherwise nothing is queued |
| AsyncWorker.Worker.MonitorStep | src/gui/async_worker.py:331-360 | the monitor moves the oldest queued update into the history while running, stops when the worker stops running, and loses no update |
| AsyncWorker.Worker.Finish | src/gui/async_worker.py:291-329 | a return completes the worker at `now` unless cancelled, in which case nothing changes; a raise fails it with that error; its status and cancel event move as the life-cycle step says |
| AsyncWorker.FinishedStaysFinished | src/gui/async_worker.py:88-329 | a finished worker stays finished under cancel, pause, resume and the end of the wrapper, and is unchanged by all but the last; only `start` can leave it |
| AsyncWorker.FinishedIsFinal | src/gui/async_worker.py:88-329 | the same over any series of calls without a `start`: `is_finished` stays true |
| AsyncWorker.CancelRequestSticks | src/gui/async_worker.py:88-329 | once a cancel is requested, only `start` clears it, and a worker not already completed can no longer complete |
| AsyncWorker.CancelIfRunning | src/gui/async_worker.py:407-413 | a running worker gets the cancel request and, when its thread stops, the cancelled status and end time `now`; every other field, and a worker not running, is left as it was |
| AsyncWorker.CountAmongStep | src/gui/async_worker.py:419-425 | adding one worker to a count raises the count of its own status by one and no other |
| AsyncWorker.CountsSum | src/gui/async_worker.py:419-425 | the counts of the six statuses over any set of workers add up to its size |
| AsyncWorker.CountAmongAll | src/gui/async_worker.py:419-425 | counting over all workers is the status count |
| AsyncWorker.WorkerPool.constructor | src/gui/async_worker.py:366-377 | a new pool is empty with the given maximum |
| AsyncWorker.WorkerPool.GetWorker | src/gui/async_worker.py:390-392 | the worker under that name, none exactly when the name is absent |
| AsyncWorker.WorkerPool.CreateWorker | src/gui/async_worker.py:379-388 | a taken name is refused with a ValueError and the pool unchanged; otherwise a fresh idle worker is added under the name and found by it |
| AsyncWorker.WorkerPool.RemoveWorker | src/gui/async_worker.py:394-405 | true exactly when the name was present; exactly that name is removed, and its worker is cancelled as `cancel` does when it was running, nothing else of it changing |
| AsyncWorker.WorkerPool.CancelAll | src/gui/async_worker.py:407-413 | every running worker gets the cancel request and, when its thread stops, the cancelled status and end time `now`; every other field, and every worker not running, is unchanged |
| AsyncWorker.WorkerPool.Census | src/gui/async_worker.py:415-425 | each name in the pool maps to its worker's status |
| AsyncWorker.WorkerPool.ActiveCount | src/gui/async_worker.py:415-417 | the number of running workers |
| AsyncWorker.WorkerPool.StatusSummary | src/gui/async_worker.py:419-425 | each status present maps to how many workers have it, the running entry agrees with the active count, and the counts add up to the pool size |
| AsyncWorker.SummaryStep | src/gui/async_worker.py:419-425 | tallying one more worker adds one to its status's entry, creating it at one |
| AsyncWorker.Tally | src/gui/async_worker.py:419-425 | the loop's map has exactly the statuses present, each with its count |
| AsyncWorker.CensusSum | src/gui/async_worker.py:419-425 | the six status counts add up to the number of workers |
| AsyncWorker.PhaseProgress | src/gui/async_worker.py:488-543 | the progress of a loop step stays in its phase's band and rises from step to step |
| AsyncWorker.LoopReports | src/gui/async_worker.py:488-543 | one report per step done, each the step's progress |
| AsyncWorker.LoopReportsPrefix | src/gui/async_worker.py:488-543 | the reports of an interrupted loop are a prefix of the full loop's |
| AsyncWorker.StepsAscending | src/gui/async_worker.py:451-551 | a sequence rising from each element to the next never falls |
| AsyncWorker.AscendingPrefix | src/gui/async_worker.py:451-551 | a prefix of a rising sequence still rises |
| AsyncWorker.AscendingJoin | src/gui/async_worker.py:451-551 | two rising sequences joined at a step up still rise |
| AsyncWorker.LoopReportsRise | src/gui/async_worker.py:488-543 | a full loop's reports rise and stay inside the phase's band |
| AsyncWorker.DetectionRunRises | src/gui/async_worker.py:469-504 | the reports up to the end of face detection rise and stay below 60 |
| AsyncWorker.FullRunRises | src/gui/async_worker.py:451-551 | an uninterrupted run's reports rise, stay within 0 to 100, and reach 100 only at the end |
| AsyncWorker.FullRunBands | src/gui/async_worker.py:488-543 | detection steps report between 30 and 60, generation steps between 85 and 100 |
| AsyncWorker.RunReportsPrefix | src/gui/async_worker.py:451-551 | a run stopped by a cancel, a service error or the absence of faces reports a prefix of what the full run reports |
| AsyncWorker.RunProgressRises | src/gui/async_worker.py:451-551 | whatever happens the reports rise within 0 to 100; 100 is reported exactly when faces were found and neither a cancel nor a service error stopped the run, which then returns every selected thumbnail |
| AsyncWorker.RunRaisesIff | src/gui/async_worker.py:451-551 | a run raises only NoFacesDetectedError, when no face was found and nothing stopped detection (having reported exactly the detection phase), or the error of the service call that failed; without service errors it raises exactly when no face was found before a cancel, without a cancel exactly when no face was found or a call it makes raises |
| AsyncWorker.CancelBeforeFailureReturns | src/gui/async_worker.py:479-536 | a cancel seen by a check before any service call raises ends the run returning nothing |
| AsyncWorker.StopAt | src/gui/async_worker.py:474-536 | the run stops at the first check that sees a cancel or the first service call that raises, whichever comes first, and not before |
| AsyncWorker.Updates | src/gui/async_worker.py:220-253 | one clamped update per report, all at the same elapsed time |
| AsyncWorker.Report | src/gui/async_worker.py:220-253 | one report adds one progress value to what the worker has queued |
| AsyncWorker.DetectFaces | src/gui/async_worker.py:488-507 | stops at the first cancel seen or the first `detect_faces` that raises, having reported the steps before it; otherwise reports every detection step and counts no face exactly when none was found |
| AsyncWorker.GenerateThumbnails | src/gui/async_worker.py:528-543 | stops at the first cancel seen or the first `generate_thumbnail` that raises, having reported the steps before it; otherwise reports every generation step and makes one thumbnail per selected frame |
| AsyncWorker.SelectAndGenerate | src/gui/async_worker.py:509-551 | after a detection run with faces and no stop, the outcome (a selection or generation error included) and the reports are the run's specification |
| AsyncWorker.RunExtraction | src/gui/async_worker.py:451-551 | the worker queues exactly the specified reports and ends with the specified outcome: the thumbnail count, nothing on a cancel, NoFacesDetectedError, or the failing service's error re-raised |
| Frame.Frame.constructor | src/models/frame.py:18-29 | the dataclass fields as given, with empty metadata |
| UserSettings.UserSettings.constructor | src/models/user_settings.py:29-55 | the given settings with no custom settings |
| UserSettings.DefaultFileSettingsValid | src/models/user_settings.py:40-41 | the default prefix "thumbnail" and format "PNG" pass the file-name and format checks |
| ExtractionJob.ExtractionJob.Close | src/models/thumbnail_extraction_job.py:217-224 | the end time is `now` and the statistics are those as of `now` |
| ExtractionJob.ExtractionJob.Finish | src/models/thumbnail_extraction_job.py:211-257 | the common end of complete, fail and cancel: the new status and progress, the end time, the statistics as of then, one progress and one completion notice |
| FaceDetector.FaceFromDetection | src/services/face_detector.py:380-422 | building a face from a detection fails only with a FaceDetectionError |

## Left out

- Floating point is idealised as exact reals. The NaN and infinity checks of `Point2D` are therefore always passed, and rounding error is not modelled.
- `Point2D.distance_to` and `Point2D.rotate` are not modelled: they need a square root and trigonometry.
- Pixel-level work is not modelled:
  - OpenCV histograms, Laplacian, ORB, resizing, `imwrite`/`imread`;
  - MediaPipe detection, scikit-learn KMeans and `pairwise_distances`;
  - the BT.709 luma products.
  
  Their outputs are inputs to the model. An image is represented by its shape only.
- The feature extractors of the selector are not modelled: `_extract_orb_features`, `_extract_color_histogram` and `_extract_face_position_features`. The model receives the matrices computed from their features.
- Helpers with no caller in the modelled code are not modelled. These are `create_output_directory`, `validate_output_directory` and `get_output_filepath` (src/models/user_settings.py:211-251), and `copy` and `__eq__` (src/models/user_settings.py:363-389). `__eq__` also reads the undeclared `orientation` attribute, as in the first Findings row. `FaceDetectionResult.from_mediapipe_detection` (src/models/face_detection_result.py:239-270) is not modelled either: it is a placeholder that returns fixed values.
- `VideoProcessor.get_video_info` is not modelled: it only copies the video's fields into a dict.
- The `cleanup` and `__del__` methods of the processor, detector, selector and extractor are not modelled. They release foreign resources.
- The `to_dict` and `__str__` methods are not modelled: they are serialisation and display only. `ThumbnailExtractionError.to_dict` is the exception, and it is modelled as `Errors.ToDict`.
- Logging, status and user messages are not modelled. Neither are the `details` dictionaries attached to errors, beyond their keys. `create_user_friendly_error` also adds `original_error` to the caller's own dictionary when it is non-empty (the same dict object is reused); the model builds a new map and leaves the caller's value unchanged.
- The file system is given as values: existence, file size, free disk space, write permission and the outcome of `mkdir`. Path resolution is not modelled; a path is taken as already absolute.
- The JSON settings file is given as the parsed entries. JSON encoding and decoding are not modelled.
- `Config.get_resolved_paths`, `ConfigManager`, `ConfigPresets`, the module-level config helpers and `_get_default_config_path` are not modelled. They are process-global state, platform paths and data.
- `Config.Config.Set` does not model the type check, because the source only logs a warning and stores the value anyway.
- Config.Config.Get: keys are the declared field names only. `hasattr`/`getattr` also answer for Python's own class attributes, such as `__doc__` or a method name; for those the model returns the default.
- Config.Config.Set: keys are the declared field names only. A Python class attribute such as `__doc__` passes `hasattr` and is assigned on the instance, the result being that of a normal key (False when the assignment itself raises). The model refuses such a key and changes nothing.
- Threads, events, join timeouts, queue polling and `wait_if_paused` blocking are not modelled. What another thread does is a separate method (`AsyncWorker.Worker.Finish`, `AsyncWorker.Worker.MonitorStep`), and whether a thread stops in time is an input.
- The global worker pool and its module-level helpers are not modelled.
- The worker's callbacks and the job's progress and completion callbacks are modelled only by the notices they receive. What the callbacks do is not modelled.
- The number of frames the extraction worker selects is an input to `AsyncWorker.RunExtraction`. The selector itself is modelled separately, in `DiversitySelector`.
- Which service call of the extraction run raises first, and what it raises, is also an input to `AsyncWorker.RunExtraction` (`failAt`). The errors each service can raise are modelled with the services.
- The clock is a parameter `now`, in seconds. Dates and their formatting are not modelled.

These behaviours of the source are reproduced as written rather than corrected:

- `start` of a worker is allowed while it is paused.
- `cancel` of a worker is refused while it is paused.
- After `resume`, the progress monitor is not restarted.
- `fail` of an extraction job has no state guard.
- `create_extraction_job` with no frames fails with a `ThumbnailExtractionError`. The error wraps the one raised on the missing video.

## Findings

| source | as written | input that shows it | evidently intended | confidence | as-written member | corrected member |
|---|---|---|---|---|---|---|
| src/models/user_settings.py:105-107 | the output check reads `self.orientation`, which the class does not declare | any settings, including the defaults: construction and `create_preset` raise AttributeError (`create_preset` would still raise TypeError once this is fixed; see the next row) | the orientation step is dropped, so valid settings are accepted | not executed | UserSettings.ConstructionAlwaysFailsAsWritten, UserSettings.CreatePresetAlwaysFailsAsWritten | UserSettings.RejectionIffInvalid, UserSettings.CreatePreset |
| src/models/user_settings.py:351 | the `portrait_mode` preset is built with `orientation=...`, a keyword the class does not declare, and the table of presets is built in full before the lookup | any name, `high_quality` included, once the check above is fixed: `create_preset` raises TypeError | the portrait preset is portrait through its sizes, without the keyword | not executed | UserSettings.CreatePresetFailsWithTypeError | UserSettings.CreatePreset |
| src/services/video_processor.py:223-240 | `detect_scene_changes` ends after the threshold check; its loop sits unreachable inside `_get_video_rotation` | any threshold in [0, 1]: the result is None, not a list | the first frame, then every frame whose difference from its predecessor reaches the threshold | not executed | VideoProcessor.DetectSceneChangesAsWritten, VideoProcessor.SceneChangesAsWrittenLoseFirstFrame | VideoProcessor.VideoProcessor.DetectSceneChanges |
| src/services/video_processor.py:159-203 | the step is `int(fps * interval)` with no lower bound | fps * interval below 1, for example 1 fps with a 0.5 s interval: the position stays at frame 0 and the loop never exits | a step of at least one frame | not executed | VideoProcessor.ZeroStepNeverExits | VideoProcessor.SamplingStepAdvances |
| src/services/diversity_selector.py:415 | a cluster's best candidate is chosen by the score at the frame's original index in the sorted list | totals 0.5, 0.9, 0.1 with count 1: frame 0 (0.5) is kept instead of frame 1 (0.9) | the candidate's own ranked score | not executed | DiversitySelector.WrittenLookupPicksWorse | DiversitySelector.SingleClusterPicksBest |
| src/services/diversity_selector.py:425-430 | the fill `while` loop repeats the pass as long as fewer than `count` frames are chosen | three candidates that are the same frame, in one cluster, with count 2: no pass adds a frame | a single pass over the candidates | not executed | DiversitySelector.FillLoopNeverEnds | DiversitySelector.FillPass |
